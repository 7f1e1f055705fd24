/** Safety of the interleaved engine under two rules: a manual retry reads only a row whose token is nowhere
    (every FAILED row is such a row) and commits only if it would read the same again, and a retry message
    is not redelivered after its enqueue. Then each id is in at most one place at any moment, and everything
    else follows. */
module Exclusivity {
  import opened Model
  import opened Dispatch
  import opened Scores
  import opened Engine

  predicate Disciplined(s: State, a: Action) {
    && !a.RedeliverLate?
    && (a.Ask? ==> Tokens(s, a.id) == 0)
    && (a.ManualRetry? ==> StillAsRead(s, a.i, a.id))
  }

  /** The row of a manual retry about to commit is still admissible, its retry count is the one read, and its
      token is nowhere. */
  predicate StillAsRead(s: State, i: nat, id: Id) {
    && i < |s.tasks| && s.tasks[i].Asking? && id in s.notes
    && s.notes[id].row.status !in {Sent, Queued} && s.notes[id].row.retryCount == s.tasks[i].count
    && Tokens(s, id) == 0
  }

  predicate DisciplinedRun(c: Config, s: State, run: seq<Action>)
    requires Legal(c, s, run)
    decreases |run|
  {
    run == [] || (Disciplined(s, run[0]) && DisciplinedRun(c, Apply(c, s, run[0]), run[1..]))
  }

  // ---------------------------------------------------------------------------------------------
  // The invariant

  function Flag(b: bool): nat { if b then 1 else 0 }

  /** An active row has its token in exactly one place, or lost; any other id has no token at all. */
  ghost predicate Balanced(s: State, id: Id) {
    Tokens(s, id) + Flag(id in s.stranded) == Flag(id in s.notes && Active(s.notes[id].row))
  }

  ghost predicate NoteGood(c: Config, s: State, id: Id)
    requires id in s.notes
  {
    && NoteOk(c, s.notes[id])
    && CleanNote(s.notes[id])
    && (s.notes[id].row.status == Queued ==> Held(s.tasks, id, true) + Flag(id in s.stranded) == 1)
    && (id in s.stranded ==> id in s.points && LostAt(s.points[id], s.notes[id].row))
  }

  /** What the place of the loss says about the row. */
  predicate LostAt(point: Point, row: Row) {
    && (row.status == Queued <==> point == BetweenCommits)
    && (point == BeforePublish ==> row.status == Retrying)
  }

  /** Every id a task holds names a row; an enqueuer carries that row's priority; a dispatcher's
      snapshot is the row; a manual retry remembers a count the row can have had. */
  ghost predicate TaskGood(c: Config, notes: map<Id, Note>, t: Task) {
    match t
    case Idle => true
    case Acking(_) => true
    case Enqueuing(id, priority, _) => id in notes && priority == notes[id].row.priority
    case Handling(id) => id in notes
    case Asking(id, count) => id in notes && CountOk(c, notes[id], count)
    case Dispatching(id, phase) => id in notes && Fresh(c, phase, notes[id]) && CleanPhase(phase, notes[id])
    case Burying(letter) => LetterOk(c, letter)
  }

  /** A queued id is a row's, under that row's priority. */
  ghost predicate QueuedGood(s: State, id: Id)
    requires id in s.queue
  {
    id in s.notes && exists ms :: s.queue[id] == Score(s.notes[id].row.priority, ms)
  }

  ghost predicate IdGood(c: Config, s: State, id: Id) {
    && Balanced(s, id)
    && (id in s.notes ==> NoteGood(c, s, id))
    && (id in s.queue ==> QueuedGood(s, id))
  }

  ghost predicate RetriesGood(c: Config, s: State) {
    forall k :: 0 <= k < |s.retries| ==>
      && s.retries[k].id in s.notes
      && AtItsLevel(c, s.notes[s.retries[k].id], s.retries[k].delay)
  }

  ghost predicate KeysUnique(notes: map<Id, Note>) {
    forall a, b :: a in notes && b in notes && notes[a].row.key == notes[b].row.key ==> a == b
  }

  ghost predicate DlqGood(c: Config, s: State) {
    forall k :: 0 <= k < |s.dlq| ==> LetterOk(c, s.dlq[k])
  }

  ghost predicate TasksGood(c: Config, s: State) {
    forall i :: 0 <= i < |s.tasks| ==> TaskGood(c, s.notes, s.tasks[i])
  }

  ghost predicate Inv(c: Config, s: State) {
    (forall id :: IdGood(c, s, id)) && TasksGood(c, s) && RetriesGood(c, s) && KeysUnique(s.notes) && DlqGood(c, s)
  }

  /** What the count of tokens says about a task that holds one. */
  lemma HolderIsAlone(c: Config, s: State, i: nat)
    requires Inv(c, s) && i < |s.tasks| && Token(s.tasks[i]).Some?
    ensures var id := Token(s.tasks[i]).value;
            && id in s.notes && Active(s.notes[id].row) && id !in s.stranded
            && id !in s.queue && InRetry(s.retries, id) == 0 && s.results[id] == 0
            && Held(s.tasks, id, false) == 1
            && (forall j :: 0 <= j < |s.tasks| && j != i ==> Token(s.tasks[j]) != Some(id))
  {
    var id := Token(s.tasks[i]).value;
    assert IdGood(c, s, id);
    HeldAt(s.tasks, i, id, false);
    forall j | 0 <= j < |s.tasks| && j != i
      ensures Token(s.tasks[j]) != Some(id)
    {
      if Token(s.tasks[j]) == Some(id) {
        if i < j { HeldTwice(s.tasks, i, j, id); } else { HeldTwice(s.tasks, j, i, id); }
      }
    }
  }

  /** An id that waits outside every dispatch is not QUEUED. */
  lemma PlacedIsWaiting(c: Config, s: State, id: Id)
    requires Inv(c, s)
    requires id in s.queue || InRetry(s.retries, id) > 0 || s.results[id] > 0
    ensures id in s.notes && Waiting(s.notes[id].row) && id !in s.stranded && Held(s.tasks, id, false) == 0
    ensures Tokens(s, id) == 1
  {
    assert IdGood(c, s, id);
    MidIsHeld(s.tasks, id);
  }

  lemma HeldBoth(s: State, i: nat, t: Task, id: Id)
    requires i < |s.tasks|
    ensures Held(s.tasks[i := t], id, false) + Flag(Token(s.tasks[i]) == Some(id)) ==
            Held(s.tasks, id, false) + Flag(Token(t) == Some(id))
    ensures Held(s.tasks[i := t], id, true) + Flag(Holds(s.tasks[i], id, true)) ==
            Held(s.tasks, id, true) + Flag(Holds(t, id, true))
  {
    HeldUpdate(s.tasks, i, t, id, false);
    HeldUpdate(s.tasks, i, t, id, true);
  }

  /** The sole holder of an id is past QUEUED exactly when its phase is. */
  lemma MidOfHolder(s: State, i: nat, id: Id)
    requires i < |s.tasks| && Token(s.tasks[i]) == Some(id) && Held(s.tasks, id, false) == 1
    ensures Held(s.tasks, id, true) == Flag(Holds(s.tasks[i], id, true))
  {
    HeldBoth(s, i, Idle, id);
    MidIsHeld(s.tasks[i := Idle], id);
  }

  // ---------------------------------------------------------------------------------------------
  // Every action keeps it

  lemma CreateCounts(c: Config, s: State, i: nat, id: Id, row: Row, j: Id)
    requires i < |s.tasks| && s.tasks[i].Idle? && id !in s.notes && IdGood(c, s, id) && IdGood(c, s, j)
    requires row.status == Pending && row.retryCount == 0 && row.stime.None? && row.errorCode.None?
    ensures IdGood(c, CreateRow(s, i, id, row), j)
  {
    HeldBoth(s, i, Enqueuing(id, row.priority, false), j);
  }

  lemma CreateKeeps(c: Config, s: State, i: nat, id: Id, row: Row)
    requires Inv(c, s) && i < |s.tasks| && s.tasks[i].Idle? && id !in s.notes && KeyIsFree(s.notes, row.key)
    requires row.status == Pending && row.retryCount == 0 && row.stime.None? && row.errorCode.None?
    ensures Inv(c, CreateRow(s, i, id, row))
  {
    var s' := CreateRow(s, i, id, row);
    forall j ensures IdGood(c, s', j) {
      assert IdGood(c, s, id) && IdGood(c, s, j);
      CreateCounts(c, s, i, id, row, j);
    }
  }

  lemma EnqueueKeeps(c: Config, s: State, i: nat, ms: nat)
    requires Inv(c, s) && i < |s.tasks| && s.tasks[i].Enqueuing?
    ensures Inv(c, EnqueueToken(s, i, ms))
    ensures s.tasks[i].id !in s.queue
  {
    var s' := EnqueueToken(s, i, ms);
    HolderIsAlone(c, s, i);
    assert TaskGood(c, s.notes, s.tasks[i]);
    forall j ensures IdGood(c, s', j) {
      assert IdGood(c, s, j);
      HeldBoth(s, i, s'.tasks[i], j);
    }
  }

  lemma PopKeeps(c: Config, s: State, i: nat, id: Id)
    requires Inv(c, s) && i < |s.tasks| && s.tasks[i].Idle? && id in s.queue
    ensures Inv(c, PopMin(s, i, id))
  {
    var s' := PopMin(s, i, id);
    PlacedIsWaiting(c, s, id);
    forall j ensures IdGood(c, s', j) {
      assert IdGood(c, s, j);
      HeldBoth(s, i, s'.tasks[i], j);
    }
  }

  lemma PopLostKeeps(c: Config, s: State, id: Id)
    requires Inv(c, s) && id in s.queue
    ensures Inv(c, Lose(s.(queue := s.queue - {id}), id, AtPop))
  {
    PlacedIsWaiting(c, s, id);
    forall j ensures IdGood(c, Lose(s.(queue := s.queue - {id}), id, AtPop), j) { assert IdGood(c, s, j); }
  }

  /** How a clean step of the sole holder changes the counts of its id. */
  lemma SettleCounts(c: Config, s: State, i: nat, n: Note, turn: Turn)
    requires Inv(c, s) && i < |s.tasks| && s.tasks[i].Dispatching?
    requires Cleanly(s.tasks[i].phase, n, turn) && NoteOk(c, n)
    ensures IdGood(c, Settle(s, i, s.tasks[i].id, n, turn), s.tasks[i].id)
  {
    var t := s.tasks[i];
    var s' := Settle(s, i, t.id, n, turn);
    HolderIsAlone(c, s, i);
    MidOfHolder(s, i, t.id);
    HeldBoth(s, i, s'.tasks[i], t.id);
    SettleRetryCount(s, i, t.id, n, turn, t.id);
  }

  lemma SettleOthers(c: Config, s: State, i: nat, n: Note, turn: Turn, j: Id)
    requires i < |s.tasks| && s.tasks[i].Dispatching? && j != s.tasks[i].id && IdGood(c, s, j)
    ensures IdGood(c, Settle(s, i, s.tasks[i].id, n, turn), j)
  {
    var s' := Settle(s, i, s.tasks[i].id, n, turn);
    HeldBoth(s, i, s'.tasks[i], j);
    SettleRetryCount(s, i, s.tasks[i].id, n, turn, j);
  }

  lemma SettleTasks(c: Config, s: State, i: nat, n: Note, turn: Turn, j: nat)
    requires Inv(c, s) && i < |s.tasks| && s.tasks[i].Dispatching? && s.tasks[i].id in s.notes && j < |s.tasks|
    requires Cleanly(s.tasks[i].phase, n, turn) && Keeping(c, s.notes[s.tasks[i].id], n, turn)
    ensures TaskGood(c, Settle(s, i, s.tasks[i].id, n, turn).notes, Settle(s, i, s.tasks[i].id, n, turn).tasks[j])
  {
    HolderIsAlone(c, s, i);
    assert TaskGood(c, s.notes, s.tasks[j]);
    if j != i { assert Token(s.tasks[j]) != Some(s.tasks[i].id); }
  }

  lemma SettleRetries(c: Config, s: State, i: nat, n: Note, turn: Turn)
    requires RetriesGood(c, s) && KeysUnique(s.notes)
    requires i < |s.tasks| && s.tasks[i].Dispatching? && s.tasks[i].id in s.notes
    requires Keeping(c, s.notes[s.tasks[i].id], n, turn) && InRetry(s.retries, s.tasks[i].id) == 0
    ensures RetriesGood(c, Settle(s, i, s.tasks[i].id, n, turn))
    ensures KeysUnique(Settle(s, i, s.tasks[i].id, n, turn).notes)
  {
    var s' := Settle(s, i, s.tasks[i].id, n, turn);
    NoMessages(s.retries, s.tasks[i].id);
    assert s'.notes == s.notes[s.tasks[i].id := n];
    assert forall k :: 0 <= k < |s.retries| ==> s'.retries[k] == s.retries[k];
  }

  lemma SettleKeeps(c: Config, s: State, i: nat, n: Note, turn: Turn)
    requires Inv(c, s) && i < |s.tasks| && s.tasks[i].Dispatching? && s.tasks[i].id in s.notes
    requires Cleanly(s.tasks[i].phase, n, turn) && Keeping(c, s.notes[s.tasks[i].id], n, turn)
    ensures Inv(c, Settle(s, i, s.tasks[i].id, n, turn))
  {
    var s' := Settle(s, i, s.tasks[i].id, n, turn);
    forall j ensures IdGood(c, s', j) {
      assert IdGood(c, s, j);
      if j == s.tasks[i].id { SettleCounts(c, s, i, n, turn); } else { SettleOthers(c, s, i, n, turn, j); }
    }
    forall j | 0 <= j < |s'.tasks| ensures TaskGood(c, s'.notes, s'.tasks[j]) { SettleTasks(c, s, i, n, turn, j); }
    HolderIsAlone(c, s, i);
    SettleRetries(c, s, i, n, turn);
    assert s'.dlq == s.dlq;
  }

  lemma WorkKeeps(c: Config, s: State, i: nat, x: Input)
    requires Inv(c, s) && i < |s.tasks| && s.tasks[i].Dispatching?
    ensures Inv(c, WorkOn(c, s, i, x))
  {
    var t := s.tasks[i];
    assert TaskGood(c, s.notes, t) && IdGood(c, s, t.id);
    StepKeepsNote(c, t.id, t.phase, s.notes[t.id], x);
    StepStaysClean(c, t.id, t.phase, s.notes[t.id], x);
    var (n, turn) := Step(c, t.id, t.phase, s.notes[t.id], x);
    SettleKeeps(c, s, i, n, turn);
  }

  lemma DropKeeps(c: Config, s: State, i: nat)
    requires Inv(c, s) && i < |s.tasks|
    ensures Inv(c, DropTask(s, i))
  {
    var s' := DropTask(s, i);
    var t := s.tasks[i];
    if Token(t).Some? {
      HolderIsAlone(c, s, i);
      MidOfHolder(s, i, Token(t).value);
    }
    assert TaskGood(c, s.notes, t);
    forall j ensures IdGood(c, s', j) {
      assert IdGood(c, s, j);
      HeldBoth(s, i, Idle, j);
    }
  }

  /** Replacing a task that holds no token by an idle one. */
  lemma ReleaseKeeps(c: Config, s: State, i: nat)
    requires Inv(c, s) && i < |s.tasks| && Token(s.tasks[i]).None?
    ensures Inv(c, SetTask(s, i, Idle))
    ensures s.tasks[i].Burying? ==> Inv(c, SetTask(s.(dlq := s.dlq + [s.tasks[i].letter]), i, Idle))
  {
    assert TaskGood(c, s.notes, s.tasks[i]);
    DropKeeps(c, s, i);
    if s.tasks[i].Burying? {
      var s' := SetTask(s.(dlq := s.dlq + [s.tasks[i].letter]), i, Idle);
      forall j ensures IdGood(c, s', j) { assert IdGood(c, SetTask(s, i, Idle), j); }
    }
  }

  lemma ExpireKeeps(c: Config, s: State)
    requires Inv(c, s) && s.retries != []
    ensures Inv(c, ExpireHead(s))
  {
    forall j ensures IdGood(c, ExpireHead(s), j) { assert IdGood(c, s, j); }
    assert forall k :: 0 <= k < |s.retries[1..]| ==> s.retries[1..][k] == s.retries[k + 1];
  }

  lemma TakeKeeps(c: Config, s: State, i: nat, id: Id)
    requires Inv(c, s) && i < |s.tasks| && s.tasks[i].Idle? && id in s.results
    ensures Inv(c, TakeResult(s, i, id))
  {
    PlacedIsWaiting(c, s, id);
    forall j ensures IdGood(c, TakeResult(s, i, id), j) {
      assert IdGood(c, s, j);
      HeldBoth(s, i, Handling(id), j);
    }
  }

  lemma ReadKeeps(c: Config, s: State, i: nat)
    requires Inv(c, s) && i < |s.tasks| && s.tasks[i].Handling?
    ensures Inv(c, ReadForRetry(s, i))
  {
    var s' := ReadForRetry(s, i);
    assert TaskGood(c, s.notes, s.tasks[i]);
    forall j ensures IdGood(c, s', j) {
      assert IdGood(c, s, j);
      HeldBoth(s, i, s'.tasks[i], j);
    }
  }

  lemma RedeliverKeeps(c: Config, s: State, i: nat)
    requires Inv(c, s) && i < |s.tasks| && (s.tasks[i].Handling? || s.tasks[i].Enqueuing?)
    ensures Inv(c, Return(s, i, s.tasks[i].id))
  {
    forall j ensures IdGood(c, Return(s, i, s.tasks[i].id), j) {
      assert IdGood(c, s, j);
      HeldBoth(s, i, Idle, j);
    }
  }

  lemma AskKeeps(c: Config, s: State, i: nat, id: Id)
    requires Inv(c, s) && i < |s.tasks| && s.tasks[i].Idle? && id in s.notes
    ensures Inv(c, AskRow(s, i, id))
  {
    assert IdGood(c, s, id);
    forall j ensures IdGood(c, AskRow(s, i, id), j) {
      assert IdGood(c, s, j);
      HeldBoth(s, i, Asking(id, s.notes[id].row.retryCount), j);
    }
  }

  /** A commit keeps the invariant when the id has no token and was never accepted, stale or not. */
  lemma ManualCounts(c: Config, s: State, i: nat, id: Id, j: Id)
    requires i < |s.tasks| && s.tasks[i].Asking? && IdGood(c, s, j)
    requires id in s.notes && CountOk(c, s.notes[id], s.tasks[i].count)
    requires Tokens(s, id) == 0 && Deliveries(s.notes[id]) == 0
    ensures IdGood(c, RetryByHand(s, i, id), j)
  {
    HeldBoth(s, i, Enqueuing(id, s.notes[id].row.priority, false), j);
  }

  lemma ManualKeeps(c: Config, s: State, i: nat, id: Id)
    requires Inv(c, s) && i < |s.tasks| && s.tasks[i].Asking? && s.tasks[i].id == id
    requires id in s.notes && Tokens(s, id) == 0 && Deliveries(s.notes[id]) == 0
    ensures Inv(c, RetryByHand(s, i, id))
  {
    assert TaskGood(c, s.notes, s.tasks[i]);
    NoMessages(s.retries, id);
    forall j ensures IdGood(c, RetryByHand(s, i, id), j) {
      assert IdGood(c, s, j);
      ManualCounts(c, s, i, id, j);
    }
    forall j | 0 <= j < |s.tasks| ensures Token(s.tasks[j]) != Some(id) {
      if Token(s.tasks[j]) == Some(id) { HeldAt(s.tasks, j, id, false); }
    }
  }

  /** Every disciplined action of the interleaved engine keeps the invariant. */
  lemma ActionKeeps(c: Config, s: State, a: Action)
    requires Inv(c, s) && Enabled(c, s, a) && Fine(a) && Disciplined(s, a)
    ensures Inv(c, Apply(c, s, a))
  {
    match a
    case Create(i, id, base, event, channel, recipient, priority) =>
      CreateKeeps(c, s, i, id, NewRow(base, event, channel, recipient, priority));
    case Enqueue(i, ms) => EnqueueKeeps(c, s, i, ms);
    case Pop(i, id) => PopKeeps(c, s, i, id);
    case PopLost(id) => PopLostKeeps(c, s, id);
    case Work(i, x) => WorkKeeps(c, s, i, x);
    case Drop(i) => DropKeeps(c, s, i);
    case Ack(i) => ReleaseKeeps(c, s, i);
    case Bury(i) => ReleaseKeeps(c, s, i);
    case Ask(i, id) => AskKeeps(c, s, i, id);
    case ManualRetry(i, id) => assert IdGood(c, s, id); ManualKeeps(c, s, i, id);
    case Expire => ExpireKeeps(c, s);
    case Take(i, id) => TakeKeeps(c, s, i, id);
    case Read(i) => ReadKeeps(c, s, i);
    case Redeliver(i) => RedeliverKeeps(c, s, i);
  }

  ghost predicate FineRun(run: seq<Action>) {
    forall k :: 0 <= k < |run| ==> Fine(run[k])
  }

  lemma InitIsGood(c: Config, tasks: nat)
    ensures Inv(c, Init(tasks))
  {
    forall id ensures IdGood(c, Init(tasks), id) { NoneHeld(Init(tasks).tasks, id, false); }
  }

  lemma {:induction false} RunKeeps(c: Config, s: State, run: seq<Action>)
    requires Inv(c, s) && Legal(c, s, run) && FineRun(run) && DisciplinedRun(c, s, run)
    ensures Inv(c, Exec(c, s, run))
    decreases |run|
  {
    if run != [] {
      assert Fine(run[0]);
      ActionKeeps(c, s, run[0]);
      RunKeeps(c, Apply(c, s, run[0]), run[1..]);
    }
  }
}
