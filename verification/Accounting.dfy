/** Laws of the atomic system, where each dispatch is one action. They hold for everything the code
    admits: manual retries of PENDING and RETRYING rows that still have a token, overlapping manual
    retries that commit a stale retry count, and retry messages redelivered after their enqueue, included. */
module Accounting {
  import opened Model
  import opened Backoff
  import opened Dispatch
  import opened Engine

  /** Conservation of tokens for one row: completed dispatches, live tokens, tokens dropped by faults and
      enqueues absorbed by NX add up to one plus the retry count, plus the increments of it that stale
      commits lost, plus one per late redelivery. */
  ghost predicate Conserved(s: State, id: Id)
    requires id in s.notes
  {
    |s.notes[id].past.outcomes| + Tokens(s, id) + s.dropped[id] + s.absorbed[id] ==
    1 + s.notes[id].row.retryCount + s.notes[id].past.lost + s.redelivered[id]
  }

  /** Dispatches begun, counting those that died, never outnumber the tokens that were created. */
  ghost predicate BegunBounded(s: State, id: Id)
    requires id in s.notes
  {
    s.notes[id].past.begun + Tokens(s, id) <=
    1 + s.notes[id].row.retryCount + s.notes[id].past.lost + s.redelivered[id]
  }

  ghost predicate IdLaw(c: Config, s: State, id: Id) {
    if id in s.notes then NoteOk(c, s.notes[id]) && Conserved(s, id) && BegunBounded(s, id)
    else Tokens(s, id) == 0 && s.dropped[id] == 0 && s.absorbed[id] == 0 && s.redelivered[id] == 0
  }

  ghost predicate TaskLaw(c: Config, s: State, t: Task) {
    match t
    case Acking(id) => id in s.notes
    case Dispatching(id, phase) => id in s.notes && phase.Fetched?
    case Enqueuing(id, _, _) => id in s.notes
    case Handling(id) => id in s.notes
    case Asking(id, count) => id in s.notes && CountOk(c, s.notes[id], count)
    case Burying(letter) => LetterOk(c, letter)
    case Idle => true
  }

  ghost predicate TaskLaws(c: Config, s: State) {
    forall i :: 0 <= i < |s.tasks| ==> TaskLaw(c, s, s.tasks[i])
  }

  ghost predicate LettersOk(c: Config, dlq: seq<DeadLetter>) {
    forall k :: 0 <= k < |dlq| ==> LetterOk(c, dlq[k])
  }

  ghost predicate Lawful(c: Config, s: State) {
    (forall id :: IdLaw(c, s, id)) && TaskLaws(c, s) && LettersOk(c, s.dlq)
  }

  // ---------------------------------------------------------------------------------------------
  // Each action, for one id

  lemma CreateLaw(c: Config, s: State, i: nat, id: Id, row: Row, j: Id)
    requires i < |s.tasks| && s.tasks[i].Idle? && id !in s.notes && IdLaw(c, s, id) && IdLaw(c, s, j)
    requires row.status == Pending && row.retryCount == 0 && row.errorCode.None?
    ensures IdLaw(c, CreateRow(s, i, id, row), j)
  {
    HeldUpdate(s.tasks, i, Enqueuing(id, row.priority, false), j, false);
  }

  lemma EnqueueLaw(c: Config, s: State, i: nat, ms: nat, j: Id)
    requires i < |s.tasks| && s.tasks[i].Enqueuing? && TaskLaw(c, s, s.tasks[i]) && IdLaw(c, s, j)
    ensures IdLaw(c, EnqueueToken(s, i, ms), j)
  {
    HeldUpdate(s.tasks, i, EnqueueToken(s, i, ms).tasks[i], j, false);
  }

  lemma PopLaw(c: Config, s: State, i: nat, id: Id, j: Id)
    requires i < |s.tasks| && s.tasks[i].Idle? && id in s.queue && IdLaw(c, s, j)
    ensures IdLaw(c, PopMin(s, i, id), j)
  {
    HeldUpdate(s.tasks, i, Dispatching(id, Fetched), j, false);
  }

  lemma PopLostLaw(c: Config, s: State, id: Id, j: Id)
    requires id in s.queue && IdLaw(c, s, j) && IdLaw(c, s, id)
    ensures IdLaw(c, Lose(s.(queue := s.queue - {id}), id, AtPop), j)
  {}

  lemma DropLaw(c: Config, s: State, i: nat, j: Id)
    requires i < |s.tasks| && TaskLaw(c, s, s.tasks[i]) && IdLaw(c, s, j)
    ensures IdLaw(c, DropTask(s, i), j)
  {
    HeldUpdate(s.tasks, i, Idle, j, false);
  }

  lemma RetryPathLaw(c: Config, s: State, i: nat, j: Id)
    requires i < |s.tasks| && TaskLaw(c, s, s.tasks[i]) && IdLaw(c, s, j)
    ensures s.tasks[i].Handling? ==> IdLaw(c, ReadForRetry(s, i), j)
    ensures s.tasks[i].Handling? || s.tasks[i].Enqueuing? ==> IdLaw(c, Return(s, i, s.tasks[i].id), j)
  {
    HeldUpdate(s.tasks, i, Idle, j, false);
    if s.tasks[i].Handling? { HeldUpdate(s.tasks, i, ReadForRetry(s, i).tasks[i], j, false); }
  }

  /** A message redelivered after its enqueue creates a token out of nothing; the law counts it. */
  lemma LateLaw(c: Config, s: State, i: nat, j: Id)
    requires i < |s.tasks| && s.tasks[i].Acking? && TaskLaw(c, s, s.tasks[i]) && IdLaw(c, s, j)
    ensures IdLaw(c, Return(s.(redelivered := s.redelivered + multiset{s.tasks[i].id}), i, s.tasks[i].id), j)
  {
    HeldUpdate(s.tasks, i, Idle, j, false);
  }

  lemma TakeLaw(c: Config, s: State, i: nat, id: Id, j: Id)
    requires i < |s.tasks| && s.tasks[i].Idle? && id in s.results && IdLaw(c, s, j)
    ensures IdLaw(c, TakeResult(s, i, id), j)
  {
    HeldUpdate(s.tasks, i, Handling(id), j, false);
  }

  lemma AskLaw(c: Config, s: State, i: nat, id: Id, j: Id)
    requires i < |s.tasks| && s.tasks[i].Idle? && id in s.notes && IdLaw(c, s, j)
    ensures IdLaw(c, AskRow(s, i, id), j)
  {
    HeldUpdate(s.tasks, i, Asking(id, s.notes[id].row.retryCount), j, false);
  }

  lemma ManualLaw(c: Config, s: State, i: nat, id: Id, j: Id)
    requires i < |s.tasks| && s.tasks[i].Asking? && s.tasks[i].id == id && TaskLaw(c, s, s.tasks[i]) && IdLaw(c, s, j)
    ensures IdLaw(c, RetryByHand(s, i, id), j)
  {
    HeldUpdate(s.tasks, i, Enqueuing(id, s.notes[id].row.priority, false), j, false);
  }

  /** What a stretch of a dispatch from its start does to the numbers of its row. */
  ghost predicate Progress(c: Config, n: Note, m: Note, turn: Turn) {
    && Keeping(c, n, m, turn)
    && m.past.begun <= n.past.begun + 1
    && m.row.retryCount >= n.row.retryCount
    && (turn.Done? && turn.effect.Emit? ==> m.row.retryCount == n.row.retryCount + 1)
  }

  lemma SettleOwnLaw(c: Config, s: State, i: nat, m: Note, turn: Turn)
    requires i < |s.tasks| && s.tasks[i].Dispatching? && IdLaw(c, s, s.tasks[i].id) && s.tasks[i].id in s.notes
    requires turn.Done? && Progress(c, s.notes[s.tasks[i].id], m, turn)
    ensures IdLaw(c, Settle(s, i, s.tasks[i].id, m, turn), s.tasks[i].id)
  {
    var id := s.tasks[i].id;
    HeldUpdate(s.tasks, i, Settle(s, i, id, m, turn).tasks[i], id, false);
    SettleRetryCount(s, i, id, m, turn, id);
  }

  lemma SettleOtherLaw(c: Config, s: State, i: nat, m: Note, turn: Turn, j: Id)
    requires i < |s.tasks| && s.tasks[i].Dispatching? && IdLaw(c, s, j) && j != s.tasks[i].id
    requires turn.Done?
    ensures IdLaw(c, Settle(s, i, s.tasks[i].id, m, turn), j)
  {
    var id := s.tasks[i].id;
    HeldUpdate(s.tasks, i, Settle(s, i, id, m, turn).tasks[i], j, false);
    SettleRetryCount(s, i, id, m, turn, j);
  }

  lemma CrashLaw(c: Config, s: State, i: nat, m: Note, turn: Turn, j: Id)
    requires i < |s.tasks| && s.tasks[i].Dispatching? && IdLaw(c, s, j) && s.tasks[i].id in s.notes
    requires turn.More? && Progress(c, s.notes[s.tasks[i].id], m, turn)
    ensures var id := s.tasks[i].id;
            var s1 := Lose(s.(notes := s.notes[id := m]), id, PointOf(Dispatching(id, turn.phase)));
            IdLaw(c, SetTask(s1, i, Idle), j)
  {
    HeldUpdate(s.tasks, i, Idle, j, false);
  }

  lemma AtOnceLaw(c: Config, s: State, i: nat, xs: seq<Input>, j: Id)
    requires i < |s.tasks| && s.tasks[i].Dispatching? && TaskLaw(c, s, s.tasks[i])
    requires IdLaw(c, s, s.tasks[i].id) && IdLaw(c, s, j)
    ensures IdLaw(c, RunAtOnce(c, s, i, xs), j)
  {
    var id := s.tasks[i].id;
    RunKeepsNote(c, id, Fetched, s.notes[id], xs);
    var (m, turn) := Run(c, id, Fetched, s.notes[id], xs);
    if turn.More? {
      CrashLaw(c, s, i, m, turn, j);
    } else if j == id {
      SettleOwnLaw(c, s, i, m, turn);
    } else {
      SettleOtherLaw(c, s, i, m, turn, j);
    }
  }

  // ---------------------------------------------------------------------------------------------
  // Whole actions and runs

  lemma NamesARow(c: Config, s: State, id: Id)
    requires Lawful(c, s) && Tokens(s, id) > 0
    ensures id in s.notes
  {
    assert IdLaw(c, s, id);
  }

  /** Rows stay, keep their event, and are retried by hand ever more. */
  ghost predicate Ages(a: map<Id, Note>, b: map<Id, Note>) {
    forall id :: id in a ==> id in b && a[id].row.event == b[id].row.event && a[id].past.manuals <= b[id].past.manuals
  }

  lemma TaskAges(c: Config, s: State, s': State, t: Task)
    requires Ages(s.notes, s'.notes) && TaskLaw(c, s, t)
    ensures TaskLaw(c, s', t)
  {}

  /** Ageing rows and one changed task leave the other tasks lawful. */
  lemma TasksStayLawful(c: Config, s: State, s': State, i: nat, t: Task)
    requires TaskLaws(c, s) && i < |s.tasks| && s'.tasks == s.tasks[i := t] && Ages(s.notes, s'.notes)
    requires TaskLaw(c, s', t)
    ensures TaskLaws(c, s')
  {
    forall k | 0 <= k < |s'.tasks| ensures TaskLaw(c, s', s'.tasks[k]) {
      if k != i { TaskAges(c, s, s', s.tasks[k]); }
    }
  }

  /** An action of one task that is not a step of a dispatch. */
  predicate Plain(a: Action) {
    Fine(a) && !a.Work? && !a.PopLost? && !a.Expire?
  }

  /** What the task goes on as. */
  function TaskAfter(s: State, a: Action): Task
    requires Plain(a) && IsTask(s, a.i)
  {
    var t := s.tasks[a.i];
    if a.Create? then Enqueuing(a.id, a.priority, false)
    else if a.Ask? && a.id in s.notes then Asking(a.id, s.notes[a.id].row.retryCount)
    else if a.ManualRetry? && a.id in s.notes then Enqueuing(a.id, s.notes[a.id].row.priority, false)
    else if a.Pop? then Dispatching(a.id, Fetched)
    else if a.Take? then Handling(a.id)
    else if a.Enqueue? && t.Enqueuing? && t.handler then Acking(t.id)
    else if a.Read? && t.Handling? && t.id in s.notes then Enqueuing(t.id, s.notes[t.id].row.priority, true)
    else Idle
  }

  /** Such an action changes its task alone. Only Create and ManualRetry write a row; no row goes away; only a
      letter of its own is added to the dead-letter queue; and it publishes no retry message. */
  ghost predicate OneTask(s: State, s': State, a: Action)
    requires Plain(a) && IsTask(s, a.i)
  {
    && s'.tasks == s.tasks[a.i := TaskAfter(s, a)] && s'.retries == s.retries
    && Ages(s.notes, s'.notes) && (!a.Create? && !a.ManualRetry? ==> s'.notes == s.notes)
    && s'.dlq == s.dlq + (if a.Bury? && s.tasks[a.i].Burying? then [s.tasks[a.i].letter] else [])
    && (!a.Drop? && !a.Read? && !a.ManualRetry? ==> s'.stranded == s.stranded)
  }

  lemma OneTaskChanges(c: Config, s: State, a: Action)
    requires Enabled(c, s, a) && Plain(a)
    ensures OneTask(s, Apply(c, s, a), a)
  {
    if a.Create? || a.ManualRetry? {
      RowChanges(c, s, a);
    } else if a.Drop? || a.Read? {
      LosingChanges(c, s, a);
    } else if a.Ask? || a.Enqueue? || a.Pop? {
      QueueChanges(c, s, a);
    } else if a.Ack? || a.Bury? {
      EndingChanges(c, s, a);
    } else {
      BrokerChanges(c, s, a);
    }
  }

  lemma RowChanges(c: Config, s: State, a: Action)
    requires Enabled(c, s, a) && (a.Create? || a.ManualRetry?)
    ensures OneTask(s, Apply(c, s, a), a)
  {}

  lemma LosingChanges(c: Config, s: State, a: Action)
    requires Enabled(c, s, a) && (a.Drop? || a.Read?)
    ensures OneTask(s, Apply(c, s, a), a)
  {}

  lemma QueueChanges(c: Config, s: State, a: Action)
    requires Enabled(c, s, a) && (a.Ask? || a.Enqueue? || a.Pop?)
    ensures OneTask(s, Apply(c, s, a), a)
  {}

  lemma EndingChanges(c: Config, s: State, a: Action)
    requires Enabled(c, s, a) && (a.Ack? || a.Bury?)
    ensures OneTask(s, Apply(c, s, a), a)
  {}

  lemma BrokerChanges(c: Config, s: State, a: Action)
    requires Enabled(c, s, a) && (a.Take? || a.Redeliver? || a.RedeliverLate?)
    ensures OneTask(s, Apply(c, s, a), a)
  {}

  /** The part about the tasks. */
  lemma OnlyItsTask(c: Config, s: State, a: Action)
    requires Enabled(c, s, a) && Plain(a)
    ensures Apply(c, s, a).tasks == s.tasks[a.i := TaskAfter(s, a)]
  {
    OneTaskChanges(c, s, a);
  }

  /** Rows are written by creators, dispatches and manual retries only. */
  lemma OthersLeaveRows(c: Config, s: State, a: Action)
    requires Enabled(c, s, a) && Fine(a) && !a.Work? && !a.Create? && !a.ManualRetry?
    ensures Apply(c, s, a).notes == s.notes
  {
    if Plain(a) { OneTaskChanges(c, s, a); }
  }

  lemma DispatchesOnlyAfterPop(s: State, a: Action)
    requires Plain(a) && IsTask(s, a.i)
    ensures TaskAfter(s, a).Dispatching? <==> a.Pop?
    ensures TaskAfter(s, a).Asking? <==> a.Ask? && a.id in s.notes
  {}

  lemma ChangedTaskIsLawful(c: Config, s: State, a: Action)
    requires Enabled(c, s, a) && Plain(a)
    requires TaskLaw(c, s, s.tasks[a.i])
    requires a.Pop? || a.Take? ==> a.id in s.notes
    requires a.Ask? ==> IdLaw(c, s, a.id)
    ensures Ages(s.notes, Apply(c, s, a).notes) && TaskLaw(c, Apply(c, s, a), TaskAfter(s, a))
  {
    OneTaskChanges(c, s, a);
    if a.Create? {
      CreatedIsThere(c, s, a);
    } else {
      TaskAfterLawful(c, s, a);
      TaskAges(c, s, Apply(c, s, a), TaskAfter(s, a));
    }
  }

  lemma CreatedIsThere(c: Config, s: State, a: Action)
    requires Enabled(c, s, a) && a.Create?
    ensures a.id in Apply(c, s, a).notes
  {}

  lemma TaskAfterLawful(c: Config, s: State, a: Action)
    requires Plain(a) && IsTask(s, a.i) && !a.Create? && TaskLaw(c, s, s.tasks[a.i])
    requires a.Pop? || a.Take? ==> a.id in s.notes
    requires a.Ask? ==> IdLaw(c, s, a.id)
    ensures TaskLaw(c, s, TaskAfter(s, a))
  {}

  lemma ActionTasks(c: Config, s: State, a: Action)
    requires Lawful(c, s) && Enabled(c, s, a) && Atomic(a)
    requires !a.DispatchAtOnce? && !a.CrashAtOnce? && !a.PopLost? && !a.Expire?
    ensures TaskLaws(c, Apply(c, s, a)) && LettersOk(c, Apply(c, s, a).dlq)
  {
    assert TaskLaw(c, s, s.tasks[a.i]);
    var s' := Apply(c, s, a);
    if a.Pop? || a.Take? { NamesARow(c, s, a.id); }
    assert a.Ask? ==> IdLaw(c, s, a.id);
    OneTaskChanges(c, s, a);
    ChangedTaskIsLawful(c, s, a);
    TasksStayLawful(c, s, s', a.i, TaskAfter(s, a));
  }

  lemma AtOnceTasks(c: Config, s: State, i: nat, xs: seq<Input>)
    requires Lawful(c, s) && i < |s.tasks| && s.tasks[i].Dispatching?
    requires s.tasks[i].id in s.notes
    ensures TaskLaws(c, RunAtOnce(c, s, i, xs)) && LettersOk(c, RunAtOnce(c, s, i, xs).dlq)
  {
    var id := s.tasks[i].id;
    assert IdLaw(c, s, id);
    RunKeepsNote(c, id, Fetched, s.notes[id], xs);
    var (n, turn) := Run(c, id, Fetched, s.notes[id], xs);
    var s' := RunAtOnce(c, s, i, xs);
    assert Ages(s.notes, s'.notes);
    forall k | 0 <= k < |s'.tasks| ensures TaskLaw(c, s', s'.tasks[k]) {
      assert TaskLaw(c, s, s.tasks[k]);
      TaskAges(c, s, s', s.tasks[k]);
    }
  }

  lemma ActionIsLawful(c: Config, s: State, a: Action)
    requires Lawful(c, s) && Enabled(c, s, a) && Atomic(a)
    ensures Lawful(c, Apply(c, s, a))
  {
    if a.DispatchAtOnce? || a.CrashAtOnce? {
      AtOnceTasks(c, s, a.i, a.xs);
    } else if !a.PopLost? && !a.Expire? {
      ActionTasks(c, s, a);
    }
    forall j ensures IdLaw(c, Apply(c, s, a), j) {
      ActionLaw(c, s, a, j);
    }
  }

  lemma HandlerLaw(c: Config, s: State, a: Action, j: Id)
    requires Lawful(c, s) && Enabled(c, s, a) && (a.Take? || a.Read? || a.Redeliver? || a.RedeliverLate?)
    ensures IdLaw(c, Apply(c, s, a), j)
  {
    assert IdLaw(c, s, j) && TaskLaw(c, s, s.tasks[a.i]);
    match a
    case Take(i, id) => TakeLaw(c, s, i, id, j);
    case Read(i) => RetryPathLaw(c, s, i, j);
    case Redeliver(i) => RetryPathLaw(c, s, i, j);
    case RedeliverLate(i) => LateLaw(c, s, i, j);
  }

  lemma QueueLaw(c: Config, s: State, a: Action, j: Id)
    requires Lawful(c, s) && Enabled(c, s, a)
    requires a.Enqueue? || a.Pop? || a.PopLost? || a.Drop? || a.Ack? || a.Bury? || a.Expire?
    ensures IdLaw(c, Apply(c, s, a), j)
  {
    assert IdLaw(c, s, j);
    match a
    case Enqueue(i, ms) => EnqueueLaw(c, s, i, ms, j);
    case Pop(i, id) => PopLaw(c, s, i, id, j);
    case PopLost(id) => assert IdLaw(c, s, id); PopLostLaw(c, s, id, j);
    case Drop(i) => DropLaw(c, s, i, j);
    case Ack(i) => DropLaw(c, s, i, j);
    case Bury(i) => DropLaw(c, s, i, j);
    case Expire =>
  }

  lemma ActionLaw(c: Config, s: State, a: Action, j: Id)
    requires Lawful(c, s) && Enabled(c, s, a) && Atomic(a)
    ensures IdLaw(c, Apply(c, s, a), j)
  {
    assert IdLaw(c, s, j);
    match a
    case Create(i, id, base, event, channel, recipient, priority) =>
      assert IdLaw(c, s, id);
      CreateLaw(c, s, i, id, NewRow(base, event, channel, recipient, priority), j);
    case Ask(i, id) => AskLaw(c, s, i, id, j);
    case ManualRetry(i, id) => assert TaskLaw(c, s, s.tasks[i]); ManualLaw(c, s, i, id, j);
    case DispatchAtOnce(i, xs) => assert IdLaw(c, s, s.tasks[i].id); AtOnceLaw(c, s, i, xs, j);
    case CrashAtOnce(i, xs) => assert IdLaw(c, s, s.tasks[i].id); AtOnceLaw(c, s, i, xs, j);
    case _ =>
      if a.Take? || a.Read? || a.Redeliver? || a.RedeliverLate? {
        HandlerLaw(c, s, a, j);
      } else {
        QueueLaw(c, s, a, j);
      }
  }

  ghost predicate AtomicRun(run: seq<Action>) {
    forall k :: 0 <= k < |run| ==> Atomic(run[k])
  }

  lemma {:induction false} RunIsLawful(c: Config, s: State, run: seq<Action>)
    requires Lawful(c, s) && Legal(c, s, run) && AtomicRun(run)
    ensures Lawful(c, Exec(c, s, run))
    decreases |run|
  {
    if run != [] {
      assert Atomic(run[0]);
      ActionIsLawful(c, s, run[0]);
      RunIsLawful(c, Apply(c, s, run[0]), run[1..]);
    }
  }

  lemma InitIsLawful(c: Config, tasks: nat)
    ensures Lawful(c, Init(tasks))
  {
    forall id ensures IdLaw(c, Init(tasks), id) { NoneHeld(Init(tasks).tasks, id, false); }
  }

  // ---------------------------------------------------------------------------------------------
  // The laws

  /** Token conservation along every atomic run the code admits. */
  lemma TokenConservation(c: Config, tasks: nat, run: seq<Action>, id: Id)
    requires Legal(c, Init(tasks), run) && AtomicRun(run)
    requires id in Exec(c, Init(tasks), run).notes
    ensures var s := Exec(c, Init(tasks), run);
            && |s.notes[id].past.outcomes| + Tokens(s, id) + s.dropped[id] + s.absorbed[id] ==
               1 + s.notes[id].row.retryCount + s.notes[id].past.lost + s.redelivered[id]
            && s.notes[id].row.retryCount + s.notes[id].past.lost ==
               |s.notes[id].past.delays| + s.notes[id].past.manuals
  {
    InitIsLawful(c, tasks);
    RunIsLawful(c, Init(tasks), run);
    assert IdLaw(c, Exec(c, Init(tasks), run), id);
  }

  /** Row invariants along every atomic run the code admits, and the shape of the dead-letter queue. */
  lemma RowInvariants(c: Config, tasks: nat, run: seq<Action>, id: Id)
    requires Legal(c, Init(tasks), run) && AtomicRun(run)
    requires id in Exec(c, Init(tasks), run).notes
    ensures var s := Exec(c, Init(tasks), run);
            var n := s.notes[id];
            var p := PolicyFor(c, n.row.event);
            && (n.row.status == Retrying ==>
                  1 <= n.row.retryCount <= p.maxRetries && n.row.errorCode.Some? && Retryable(n.row.errorCode.value))
            && (n.row.status == Failed ==> n.row.errorCode.Some?)
            && (n.row.status == Pending ==> n.row.errorCode.None?)
            && n.row.retryCount <= p.maxRetries + n.past.manuals
            && (forall k :: 0 <= k < |s.dlq| ==>
                  Retryable(s.dlq[k].errorCode) && s.dlq[k].retryCount >= PolicyFor(c, s.dlq[k].event).maxRetries)
  {
    InitIsLawful(c, tasks);
    RunIsLawful(c, Init(tasks), run);
    var s := Exec(c, Init(tasks), run);
    assert IdLaw(c, s, id);
    forall k | 0 <= k < |s.dlq|
      ensures Retryable(s.dlq[k].errorCode) && s.dlq[k].retryCount >= PolicyFor(c, s.dlq[k].event).maxRetries
    {
      assert LetterOk(c, s.dlq[k]);
    }
  }

  /** Work is bounded per row: the provider hears at most one health check per dispatch begun and at
      most one send per health check, and the dispatches begun are at most one more than the policy's
      retries, the manual retries, the increments they lost and the late redeliveries together. */
  lemma WorkIsBounded(c: Config, tasks: nat, run: seq<Action>, id: Id)
    requires Legal(c, Init(tasks), run) && AtomicRun(run)
    requires id in Exec(c, Init(tasks), run).notes
    ensures var s := Exec(c, Init(tasks), run);
            var n := s.notes[id];
            && |n.past.replies| <= |n.past.health| <= n.past.begun
            && n.past.begun <=
               1 + PolicyFor(c, n.row.event).maxRetries + n.past.manuals + n.past.lost + s.redelivered[id]
  {
    InitIsLawful(c, tasks);
    RunIsLawful(c, Init(tasks), run);
    assert IdLaw(c, Exec(c, Init(tasks), run), id);
  }

  /** The delays of one row: one for each retry that was not manual, each some level's; without manual
      retries one for each level from 1 to the retry count, nondecreasing, and bounded in total. */
  ghost predicate PacedBackoff(p: RetryPolicy, retryCount: nat, h: History) {
    var delays := h.delays;
    && retryCount + h.lost == |delays| + h.manuals
    && (forall k :: 0 <= k < |delays| ==> AllowedDelay(p, delays[k]))
    && (h.manuals == 0 ==>
          && retryCount == |delays| && OnSchedule(p, delays)
          && (forall k :: 0 <= k && k + 1 < |delays| ==> delays[k] <= delays[k + 1])
          && Sum(delays) <= retryCount * p.maxDelay
          && Sum(delays) <= 2 * (p.baseDelay * (Pow2(retryCount) - 1))
          && (retryCount >= 1 && p.baseDelay * Pow2(retryCount - 1) <= p.maxDelay ==>
                p.baseDelay * (Pow2(retryCount) - 1) <= Sum(delays)))
  }

  lemma HistoryIsPaced(p: RetryPolicy, retryCount: nat, h: History)
    requires p.baseDelay >= 1 && HistoryOk(p, retryCount, h)
    ensures PacedBackoff(p, retryCount, h)
  {
    if h.manuals == 0 {
      TotalWait(p, h.delays);
      DelaysNeverShrink(p, h.delays);
    }
  }

  /** Back-off along every atomic run the code admits. */
  lemma BackoffAlongARun(c: Config, tasks: nat, run: seq<Action>, id: Id)
    requires Legal(c, Init(tasks), run) && AtomicRun(run)
    requires id in Exec(c, Init(tasks), run).notes
    requires PolicyFor(c, Exec(c, Init(tasks), run).notes[id].row.event).baseDelay >= 1
    ensures var n := Exec(c, Init(tasks), run).notes[id];
            PacedBackoff(PolicyFor(c, n.row.event), n.row.retryCount, n.past)
  {
    InitIsLawful(c, tasks);
    RunIsLawful(c, Init(tasks), run);
    var n := Exec(c, Init(tasks), run).notes[id];
    assert IdLaw(c, Exec(c, Init(tasks), run), id);
    HistoryIsPaced(PolicyFor(c, n.row.event), n.row.retryCount, n.past);
  }
}
