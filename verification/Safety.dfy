/** What the invariant means, stated over whole runs of the interleaved engine. */
module Safety {
  import opened Model
  import opened Backoff
  import opened Dispatch
  import opened ChannelKeys
  import opened Scores
  import opened Engine
  import opened Exclusivity
  import opened Accounting
  import opened SortedQueue

  /** A run of the program from the empty engine, with any number of tasks. */
  ghost predicate Disciplining(c: Config, tasks: nat, run: seq<Action>) {
    Legal(c, Init(tasks), run) && FineRun(run) && DisciplinedRun(c, Init(tasks), run)
  }

  /** Token exclusivity: after any run, an id is in at most one place, so no two tasks carry it, and
      every id that is anywhere names a committed row under its own priority. */
  lemma TokenExclusivity(c: Config, tasks: nat, run: seq<Action>, id: Id)
    requires Disciplining(c, tasks, run)
    ensures var s := Exec(c, Init(tasks), run);
            && Tokens(s, id) <= 1
            && (Tokens(s, id) == 1 ==> id in s.notes && Active(s.notes[id].row))
            && (id in s.queue ==> id in s.notes && exists ms :: s.queue[id] == Score(s.notes[id].row.priority, ms))
            && (forall i, j :: 0 <= i < j < |s.tasks| && Token(s.tasks[i]) == Some(id) ==>
                      Token(s.tasks[j]) != Some(id))
  {
    InitIsGood(c, tasks);
    RunKeeps(c, Init(tasks), run);
    var s := Exec(c, Init(tasks), run);
    assert IdGood(c, s, id);
    forall i, j | 0 <= i < j < |s.tasks| && Token(s.tasks[i]) == Some(id)
      ensures Token(s.tasks[j]) != Some(id)
    {
      HolderIsAlone(c, s, i);
    }
  }

  /** At most one success: a row has at most one accepted send, SENT rows exactly one; rows still
      waiting, and FAILED rows, none; and a time of sending is set exactly on SENT rows. */
  lemma SentAtMostOnce(c: Config, tasks: nat, run: seq<Action>, id: Id)
    requires Disciplining(c, tasks, run)
    requires id in Exec(c, Init(tasks), run).notes
    ensures var n := Exec(c, Init(tasks), run).notes[id];
            && Deliveries(n) <= 1
            && (n.row.status == Sent ==> Deliveries(n) == 1)
            && (n.row.status in {Pending, Retrying, Failed} ==> Deliveries(n) == 0)
            && (n.row.stime.Some? <==> n.row.status == Sent)
  {
    InitIsGood(c, tasks);
    RunKeeps(c, Init(tasks), run);
    assert IdGood(c, Exec(c, Init(tasks), run), id);
  }

  /** End to end: for one producer key and one channel there is at most one row, hence at most one
      accepted send, whatever the number of deliveries, workers and retries. */
  lemma NeverSentTwice(c: Config, tasks: nat, run: seq<Action>, base: string, ch: Channel, id1: Id, id2: Id)
    requires Disciplining(c, tasks, run)
    requires id1 in Exec(c, Init(tasks), run).notes && id2 in Exec(c, Init(tasks), run).notes
    requires Exec(c, Init(tasks), run).notes[id1].row.key == ChannelKey(base, ch)
    requires Exec(c, Init(tasks), run).notes[id2].row.key == ChannelKey(base, ch)
    ensures id1 == id2
    ensures Deliveries(Exec(c, Init(tasks), run).notes[id1]) <= 1
  {
    InitIsGood(c, tasks);
    RunKeeps(c, Init(tasks), run);
    SentAtMostOnce(c, tasks, run, id1);
  }

  /** What waits in the retry queue: a message is there for a RETRYING row only, and its delay is one of the
      level the row's retry count says, by the table's entry for its event, and the last one drawn for it. */
  lemma MessagesCarryTheirLevel(c: Config, tasks: nat, run: seq<Action>, k: nat)
    requires Disciplining(c, tasks, run) && k < |Exec(c, Init(tasks), run).retries|
    ensures var s := Exec(c, Init(tasks), run);
            var message := s.retries[k];
            && message.id in s.notes
            && (var n := s.notes[message.id];
                var p := if n.row.event in c.table then c.table[n.row.event] else c.fallback;
                && n.row.status == Retrying && 1 <= n.row.retryCount <= p.maxRetries
                && InWindow(p, n.row.retryCount, message.delay)
                && n.past.delays != [] && n.past.delays[|n.past.delays| - 1] == message.delay)
  {
    InitIsGood(c, tasks);
    RunKeeps(c, Init(tasks), run);
    var s := Exec(c, Init(tasks), run);
    assert AtItsLevel(c, s.notes[s.retries[k].id], s.retries[k].delay);
  }

  /** Every queued id was enqueued at from or less than a shift later, going by its row's priority. */
  ghost predicate EnqueuedWithinAShift(s: State, from: nat) {
    forall j :: j in s.queue && j in s.notes ==>
      Score(s.notes[j].row.priority, from) <= s.queue[j] < Score(s.notes[j].row.priority, from) + SHIFT
  }

  /** Workers always pop a most urgent row, and among equally urgent ones the first: as long as the enqueue
      times of the queued ids lie within one shift, no queued row has a smaller priority number than the one
      popped, and none of the same priority was enqueued earlier. */
  lemma MostUrgentFirst(c: Config, s: State, i: nat, id: Id, other: Id, from: nat)
    requires Inv(c, s) && Enabled(c, s, Pop(i, id)) && other in s.queue && EnqueuedWithinAShift(s, from)
    ensures s.queue[id] <= s.queue[other]
    ensures id in s.notes && other in s.notes && s.notes[id].row.priority <= s.notes[other].row.priority
    ensures exists t1, t2 ::
              && s.queue[id] == Score(s.notes[id].row.priority, t1)
              && s.queue[other] == Score(s.notes[other].row.priority, t2)
              && NoLater(Stamp(s.notes[id].row.priority, t1), Stamp(s.notes[other].row.priority, t2))
  {
    assert IdGood(c, s, id) && IdGood(c, s, other);
    var t1 :| s.queue[id] == Score(s.notes[id].row.priority, t1);
    var t2 :| s.queue[other] == Score(s.notes[other].row.priority, t2);
    ScoreIsLexicographic(Stamp(s.notes[id].row.priority, t1), Stamp(s.notes[other].row.priority, t2));
  }

  // ---------------------------------------------------------------------------------------------
  // Rows that nobody can touch any more

  /** No token, and a status the manual retry refuses. */
  ghost predicate Frozen(s: State, id: Id) {
    id in s.notes && s.notes[id].row.status in {Sent, Queued} && Tokens(s, id) == 0
  }

  lemma UntokenedHasNoHolder(c: Config, s: State, id: Id, i: nat)
    requires Tokens(s, id) == 0 && i < |s.tasks|
    ensures Token(s.tasks[i]) != Some(id)
  {
    if Token(s.tasks[i]) == Some(id) { HeldAt(s.tasks, i, id, false); }
  }

  predicate Untouched(s: State, s': State, id: Id)
    requires id in s.notes
  {
    && id in s'.notes && s'.notes[id] == s.notes[id] && (id in s'.stranded <==> id in s.stranded)
  }

  lemma WorkLeaves(c: Config, s: State, i: nat, x: Input, id: Id)
    requires Inv(c, s) && i < |s.tasks| && s.tasks[i].Dispatching? && id in s.notes && Tokens(s, id) == 0
    ensures Untouched(s, WorkOn(c, s, i, x), id)
  {
    UntokenedHasNoHolder(c, s, id, i);
    var t := s.tasks[i];
    assert TaskGood(c, s.notes, t);
    var (n, turn) := Step(c, t.id, t.phase, s.notes[t.id], x);
    assert Untouched(s, Settle(s, i, t.id, n, turn), id);
  }

  lemma TaskLeaves(c: Config, s: State, i: nat, id: Id)
    requires Inv(c, s) && i < |s.tasks| && id in s.notes && Tokens(s, id) == 0
    ensures Untouched(s, DropTask(s, i), id)
    ensures s.tasks[i].Handling? ==> Untouched(s, ReadForRetry(s, i), id)
  {
    UntokenedHasNoHolder(c, s, id, i);
    assert TaskGood(c, s.notes, s.tasks[i]);
  }

  lemma OthersLeave(c: Config, s: State, a: Action, id: Id)
    requires Enabled(c, s, a) && Fine(a) && !a.Work? && !a.Drop? && !a.Read? && id in s.notes
    requires a.ManualRetry? || a.PopLost? ==> a.id != id
    ensures Untouched(s, Apply(c, s, a), id)
  {
    if a.Create? || a.ManualRetry? || a.PopLost? || a.Expire? {
      WritesLeave(c, s, a, id);
    } else {
      OneTaskChanges(c, s, a);
    }
  }

  lemma WritesLeave(c: Config, s: State, a: Action, id: Id)
    requires Enabled(c, s, a) && (a.Create? || a.ManualRetry? || a.PopLost? || a.Expire?) && id in s.notes
    requires a.ManualRetry? || a.PopLost? ==> a.id != id
    ensures Untouched(s, Apply(c, s, a), id)
  {}

  /** Nothing but the commit of a manual retry touches a row without a token. */
  lemma UntokenedIsUntouched(c: Config, s: State, a: Action, id: Id)
    requires Inv(c, s) && Enabled(c, s, a) && Fine(a) && id in s.notes && Tokens(s, id) == 0
    requires a.ManualRetry? ==> a.id != id
    ensures Untouched(s, Apply(c, s, a), id)
  {
    if a.Work? {
      WorkLeaves(c, s, a.i, a.x, id);
    } else if a.Drop? || a.Read? {
      TaskLeaves(c, s, a.i, id);
    } else {
      OthersLeave(c, s, a, id);
    }
  }

  /** SENT is absorbing, and so is a QUEUED row whose worker died: from then on no run changes its
      columns or its history. */
  lemma {:induction false} FrozenForever(c: Config, s: State, run: seq<Action>, id: Id)
    requires Inv(c, s) && Legal(c, s, run) && FineRun(run) && DisciplinedRun(c, s, run)
    requires Frozen(s, id)
    ensures var s' := Exec(c, s, run);
            Frozen(s', id) && s'.notes[id] == s.notes[id] && (id in s'.stranded <==> id in s.stranded)
    decreases |run|
  {
    if run != [] {
      assert Fine(run[0]);
      var s1 := Apply(c, s, run[0]);
      ActionKeeps(c, s, run[0]);
      UntokenedIsUntouched(c, s, run[0], id);
      assert IdGood(c, s, id) && IdGood(c, s1, id);
      FrozenForever(c, s1, run[1..], id);
    }
  }

  /** A SENT row has no token anywhere, and no continuation of the run touches it. */
  lemma SentIsAbsorbing(c: Config, tasks: nat, run: seq<Action>, more: seq<Action>, id: Id, i: nat)
    requires Disciplining(c, tasks, run)
    requires var s := Exec(c, Init(tasks), run);
             && id in s.notes && s.notes[id].row.status == Sent
             && Legal(c, s, more) && FineRun(more) && DisciplinedRun(c, s, more)
    ensures var s := Exec(c, Init(tasks), run);
            var s' := Exec(c, s, more);
            && Tokens(s', id) == 0 && id in s'.notes && s'.notes[id] == s.notes[id]
            && !Enabled(c, s', Ask(i, id))
  {
    InitIsGood(c, tasks);
    RunKeeps(c, Init(tasks), run);
    var s := Exec(c, Init(tasks), run);
    assert IdGood(c, s, id);
    FrozenForever(c, s, more, id);
    SentIsRefused(c, Exec(c, s, more), id, i);
  }

  lemma SentIsRefused(c: Config, s: State, id: Id, i: nat)
    requires id in s.notes && s.notes[id].row.status == Sent
    ensures !Enabled(c, s, Ask(i, id))
  {}

  // ---------------------------------------------------------------------------------------------
  // Losses

  lemma {:induction false} StrandedWereDropped(c: Config, s: State, run: seq<Action>, id: Id)
    requires Legal(c, s, run) && (id in s.stranded ==> id in s.dropped)
    ensures id in Exec(c, s, run).stranded ==> id in Exec(c, s, run).dropped
    decreases |run|
  {
    if run != [] { StrandedWereDropped(c, Apply(c, s, run[0]), run[1..], id); }
  }

  /** No silent loss: after any run, a row is PENDING, QUEUED or RETRYING exactly when its token is
      somewhere or was lost, never both; and a lost token was dropped by a fault at a place on record, which
      tells the row's status: QUEUED exactly if it was between the QUEUED and the outcome commit, RETRYING
      if the retry message was not published. */
  lemma NoSilentLoss(c: Config, tasks: nat, run: seq<Action>, id: Id)
    requires Disciplining(c, tasks, run)
    ensures var s := Exec(c, Init(tasks), run);
            && (id in s.notes && s.notes[id].row.status in {Pending, Queued, Retrying} <==>
                  Tokens(s, id) == 1 || id in s.stranded)
            && !(Tokens(s, id) >= 1 && id in s.stranded)
            && (id in s.stranded ==> id in s.dropped && id in s.points && LostAt(s.points[id], s.notes[id].row))
  {
    InitIsGood(c, tasks);
    RunKeeps(c, Init(tasks), run);
    assert IdGood(c, Exec(c, Init(tasks), run), id);
    StrandedWereDropped(c, Init(tasks), run, id);
  }

  lemma LossIsBeyondRepair(c: Config, s: State, id: Id, i: nat)
    requires Inv(c, s) && id in s.stranded && i < |s.tasks| && s.tasks[i].Idle?
    ensures id in s.points && id in s.notes && Tokens(s, id) == 0 && s.notes[id].row.status != Sent
    ensures s.points[id] == BetweenCommits <==> s.notes[id].row.status == Queued
  {
    assert IdGood(c, s, id);
  }

  /** Lost for good: frozen, and no manual retry is admitted. Or a free task can retry it by hand within the
      rules, which restores the token. */
  ghost predicate BeyondRepair(c: Config, s: State, id: Id, i: nat) {
    Frozen(s, id) && !Enabled(c, s, Ask(i, id))
  }

  ghost predicate Repairable(c: Config, s: State, id: Id, i: nat) {
    && i < |s.tasks| && id in s.notes && !Frozen(s, id)
    && Enabled(c, s, Ask(i, id)) && Disciplined(s, Ask(i, id))
    && (var s1 := AskRow(s, i, id);
        && Enabled(c, s1, ManualRetry(i, id)) && Disciplined(s1, ManualRetry(i, id))
        && Tokens(RetryByHand(s1, i, id), id) == 1)
  }

  lemma LossIsDecided(c: Config, s: State, id: Id, i: nat)
    requires Inv(c, s) && id in s.stranded && i < |s.tasks| && s.tasks[i].Idle?
    ensures id in s.points
    ensures if s.points[id] == BetweenCommits then BeyondRepair(c, s, id, i) else Repairable(c, s, id, i)
  {
    LossIsBeyondRepair(c, s, id, i);
    if s.points[id] != BetweenCommits { Revive(c, s, i, id); }
  }

  /** Which losses are beyond repair, over whole runs: exactly those between the two commits. */
  lemma LossesBeyondRepair(c: Config, tasks: nat, run: seq<Action>, id: Id, i: nat)
    requires Disciplining(c, tasks, run) && id in Exec(c, Init(tasks), run).stranded
    requires i < |Exec(c, Init(tasks), run).tasks| && Exec(c, Init(tasks), run).tasks[i].Idle?
    ensures var s := Exec(c, Init(tasks), run);
            && id in s.points
            && (if s.points[id] == BetweenCommits then BeyondRepair(c, s, id, i) else Repairable(c, s, id, i))
  {
    InitIsGood(c, tasks);
    RunKeeps(c, Init(tasks), run);
    LossIsDecided(c, Exec(c, Init(tasks), run), id, i);
  }

  /** A free task retries a row without a token by hand. */
  lemma Revive(c: Config, s: State, i: nat, id: Id)
    requires i < |s.tasks| && s.tasks[i].Idle? && id in s.notes && s.notes[id].row.status !in {Sent, Queued}
    requires Tokens(s, id) == 0
    ensures var s1 := AskRow(s, i, id);
            && Enabled(c, s1, ManualRetry(i, id)) && Disciplined(s1, ManualRetry(i, id))
            && Tokens(RetryByHand(s1, i, id), id) == 1
  {
    var s1 := AskRow(s, i, id);
    HeldBoth(s, i, s1.tasks[i], id);
    HeldBoth(s1, i, RetryByHand(s1, i, id).tasks[i], id);
  }

  /** Nothing waits anywhere and no task is at work. */
  predicate Quiescent(s: State) {
    && s.queue == map[] && s.retries == [] && s.results == multiset{}
    && forall i :: 0 <= i < |s.tasks| ==> s.tasks[i].Idle?
  }

  /** At rest, the rows without an outcome are exactly the stranded ones; so a run without faults
      rests with every row SENT or FAILED. */
  lemma RestMeansSettled(c: Config, tasks: nat, run: seq<Action>, id: Id)
    requires Disciplining(c, tasks, run)
    requires Quiescent(Exec(c, Init(tasks), run)) && id in Exec(c, Init(tasks), run).notes
    ensures var s := Exec(c, Init(tasks), run);
            && (s.notes[id].row.status in {Sent, Failed} <==> id !in s.stranded)
            && (s.dropped == multiset{} ==> s.notes[id].row.status in {Sent, Failed})
  {
    var s := Exec(c, Init(tasks), run);
    NoneHeld(s.tasks, id, false);
    NoSilentLoss(c, tasks, run, id);
    var status := s.notes[id].row.status;
    assert status.Pending? || status.Queued? || status.Sent? || status.Failed? || status.Retrying?;
  }

  /** A creator, a manual retry or a retry handler has the id in hand. */
  predicate Carries(t: Task, id: Id) {
    (t.Enqueuing? || t.Handling?) && t.id == id
  }

  /** Between dispatches, a row without an outcome is not QUEUED, and its token is in Redis, in RabbitMQ or
      with a task about to put it there, unless it was lost. */
  lemma RestsBetweenDispatches(c: Config, tasks: nat, run: seq<Action>, id: Id)
    requires Disciplining(c, tasks, run)
    requires var s := Exec(c, Init(tasks), run);
             && (forall i :: 0 <= i < |s.tasks| ==> !s.tasks[i].Dispatching?)
             && id in s.notes && Active(s.notes[id].row)
    ensures var s := Exec(c, Init(tasks), run);
            || id in s.stranded
            || (&& Waiting(s.notes[id].row)
                && (|| id in s.queue || InRetry(s.retries, id) == 1 || s.results[id] == 1
                    || exists i :: 0 <= i < |s.tasks| && Carries(s.tasks[i], id)))
  {
    InitIsGood(c, tasks);
    RunKeeps(c, Init(tasks), run);
    var s := Exec(c, Init(tasks), run);
    assert IdGood(c, s, id);
    NoneHeld(s.tasks, id, true);
    if forall i :: 0 <= i < |s.tasks| ==> Token(s.tasks[i]) != Some(id) {
      NoneHeld(s.tasks, id, false);
    }
  }

  // ---------------------------------------------------------------------------------------------
  // Redelivery after the enqueue

  /** It adds a token out of nothing, so ids are never exclusive after it. */
  lemma LateRedeliveryBreaksExclusivity(c: Config, s: State, i: nat)
    requires Inv(c, s) && Enabled(c, s, RedeliverLate(i))
    ensures !Inv(c, Apply(c, s, RedeliverLate(i)))
    ensures Tokens(Apply(c, s, RedeliverLate(i)), s.tasks[i].id) == Tokens(s, s.tasks[i].id) + 1
  {
    var id, s' := s.tasks[i].id, Apply(c, s, RedeliverLate(i));
    assert IdGood(c, s, id);
    HeldBoth(s, i, Idle, id);
    assert !Balanced(s', id);
    InvBalances(c, s', id);
  }

  /** An enqueue takes a token away exactly when the id is in the sorted set already. */
  lemma AbsorbedIffQueued(s: State, i: nat, ms: nat)
    requires i < |s.tasks| && s.tasks[i].Enqueuing?
    ensures var id := s.tasks[i].id;
            Tokens(EnqueueToken(s, i, ms), id) == Tokens(s, id) - Flag(id in s.queue)
  {
    HeldBoth(s, i, EnqueueToken(s, i, ms).tasks[i], s.tasks[i].id);
  }

  lemma CountersDoNotMatter(c: Config, s: State, absorbed: multiset<Id>, redelivered: multiset<Id>)
    requires Inv(c, s)
    ensures Inv(c, s.(absorbed := absorbed, redelivered := redelivered))
  {
    var s' := s.(absorbed := absorbed, redelivered := redelivered);
    forall j ensures IdGood(c, s', j) { assert IdGood(c, s, j); }
  }

  lemma TakenBack(s: State, i: nat, id: Id)
    requires i < |s.tasks|
    ensures TakeResult(Return(s, i, id), i, id) == SetTask(s, i, Handling(id))
  {
    assert s.tasks[i := Idle][i := Handling(id)] == s.tasks[i := Handling(id)];
    assert s.results + multiset{id} - multiset{id} == s.results;
  }

  lemma EnqueuedAgain(s: State, i: nat, id: Id, ms: nat)
    requires i < |s.tasks| && s.tasks[i] == Acking(id) && id in s.queue && id in s.notes
    ensures var s3 := ReadForRetry(SetTask(s, i, Handling(id)), i);
            s3.tasks[i].Enqueuing? && EnqueueToken(s3, i, ms) == s.(absorbed := s.absorbed + multiset{id})
  {
    var s3 := ReadForRetry(SetTask(s, i, Handling(id)), i);
    assert s3 == SetTask(s, i, Enqueuing(id, s.notes[id].row.priority, true)) by {
      assert s.tasks[i := Handling(id)][i := s3.tasks[i]] == s.tasks[i := s3.tasks[i]];
    }
    assert s.tasks[i := s3.tasks[i]][i := Acking(id)] == s.tasks;
  }

  lemma ReturnIsTaken(c: Config, s: State, i: nat)
    requires Enabled(c, s, RedeliverLate(i))
    ensures var id := s.tasks[i].id;
            var s1 := Apply(c, s, RedeliverLate(i));
            && s1 == Return(s.(redelivered := s.redelivered + multiset{id}), i, id)
            && Enabled(c, s1, Take(i, id))
  {}

  lemma RedeliveryRound(c: Config, s: State, i: nat, ms: nat)
    requires Enabled(c, s, RedeliverLate(i)) && s.tasks[i].id in s.queue && s.tasks[i].id in s.notes
    ensures var id := s.tasks[i].id;
            var s1 := Apply(c, s, RedeliverLate(i));
            && Enabled(c, s1, Take(i, id)) && Enabled(c, TakeResult(s1, i, id), Read(i))
            && (var s3 := ReadForRetry(TakeResult(s1, i, id), i);
                && Enabled(c, s3, Enqueue(i, ms))
                && EnqueueToken(s3, i, ms) ==
                   s.(absorbed := s.absorbed + multiset{id}, redelivered := s.redelivered + multiset{id}))
  {
    var id := s.tasks[i].id;
    ReturnIsTaken(c, s, i);
    var s0 := s.(redelivered := s.redelivered + multiset{id});
    TakenBack(s0, i, id);
    EnqueuedAgain(s0, i, id, ms);
  }

  /** If the id has not been popped when the redelivered message is handled, nothing has happened: the
      state is the one before the redelivery, and ids are exclusive again. */
  lemma EarlyRedeliveryIsHarmless(c: Config, s: State, i: nat, ms: nat)
    requires Inv(c, s) && Enabled(c, s, RedeliverLate(i)) && s.tasks[i].id in s.queue
    ensures var id := s.tasks[i].id;
            var s1 := Apply(c, s, RedeliverLate(i));
            && Enabled(c, s1, Take(i, id)) && Enabled(c, TakeResult(s1, i, id), Read(i))
            && (var s3 := ReadForRetry(TakeResult(s1, i, id), i);
                && Enabled(c, s3, Enqueue(i, ms))
                && (var s4 := EnqueueToken(s3, i, ms);
                    && s4 == s.(absorbed := s.absorbed + multiset{id}, redelivered := s.redelivered + multiset{id})
                    && Inv(c, s4)))
  {
    var id := s.tasks[i].id;
    PlacedIsWaiting(c, s, id);
    RedeliveryRound(c, s, i, ms);
    CountersDoNotMatter(c, s, s.absorbed + multiset{id}, s.redelivered + multiset{id});
  }

  // ---------------------------------------------------------------------------------------------
  // When a manual retry is safe

  /** The rule an operator can keep: retry by hand only what is FAILED, one retry of a row at a time, and let no
      handler crash between its enqueue and its acknowledgement. */
  predicate CarefulAction(s: State, a: Action) {
    && !a.RedeliverLate?
    && (a.Ask? ==> a.id in s.notes && s.notes[a.id].row.status == Failed && !Asked(s, a.id))
  }

  /** A manual retry of id is between its read and its commit. */
  predicate Asked(s: State, id: Id) {
    exists i :: 0 <= i < |s.tasks| && s.tasks[i].Asking? && s.tasks[i].id == id
  }

  predicate Careful(c: Config, s: State, run: seq<Action>)
    requires Legal(c, s, run)
    decreases |run|
  {
    run == [] || (CarefulAction(s, run[0]) && Careful(c, Apply(c, s, run[0]), run[1..]))
  }

  /** Without manual retries and late redeliveries a run is careful, so the rule excludes nothing else. */
  lemma {:induction false} WithoutHandsIsCareful(c: Config, s: State, run: seq<Action>)
    requires Legal(c, s, run) && forall k :: 0 <= k < |run| ==> !run[k].Ask? && !run[k].RedeliverLate?
    ensures Careful(c, s, run)
    decreases |run|
  {
    if run != [] {
      assert !run[0].Ask? && !run[0].RedeliverLate?;
      WithoutHandsIsCareful(c, Apply(c, s, run[0]), run[1..]);
    }
  }

  /** Every retry under way has its row to itself, and the row is as it was read. */
  predicate AskerOk(s: State, i: nat)
    requires i < |s.tasks|
  {
    s.tasks[i].Asking? ==>
      var id := s.tasks[i].id;
      && id in s.notes && s.notes[id].row.status == Failed && s.notes[id].row.retryCount == s.tasks[i].count
      && forall j :: 0 <= j < |s.tasks| && j != i && s.tasks[j].Asking? ==> s.tasks[j].id != id
  }

  predicate AskersOk(s: State) {
    forall i :: 0 <= i < |s.tasks| ==> AskerOk(s, i)
  }

  lemma ActionKeepsTasks(c: Config, s: State, a: Action)
    requires Enabled(c, s, a) && Fine(a)
    ensures |Apply(c, s, a).tasks| == |s.tasks|
  {
    if !a.Work? && !a.PopLost? && !a.Expire? { OnlyItsTask(c, s, a); }
  }

  lemma AskersAfter(c: Config, s: State, a: Action, j: nat)
    requires Enabled(c, s, a) && Fine(a) && j < |s.tasks|
    ensures var s' := Apply(c, s, a);
            && |s'.tasks| == |s.tasks|
            && (s'.tasks[j].Asking? ==> s'.tasks[j] == s.tasks[j] || (a.Ask? && a.i == j && s'.tasks[j].id == a.id))
            && (a.Ask? && a.i == j ==> s'.tasks[j].Asking? && s'.tasks[j].count == s.notes[a.id].row.retryCount)
            && (a.ManualRetry? && a.i == j ==> !s'.tasks[j].Asking?)
  {
    if Plain(a) {
      OnlyItsTask(c, s, a);
      DispatchesOnlyAfterPop(s, a);
    } else {
      OthersDoNotAsk(c, s, a, j);
    }
  }

  lemma OthersDoNotAsk(c: Config, s: State, a: Action, j: nat)
    requires Enabled(c, s, a) && (a.Work? || a.PopLost? || a.Expire?) && j < |s.tasks|
    ensures var s' := Apply(c, s, a);
            && |s'.tasks| == |s.tasks| && (s'.tasks[j].Asking? ==> s'.tasks[j] == s.tasks[j])
  {}

  lemma CarefulKeepsAsker(c: Config, s: State, a: Action, i: nat)
    requires Inv(c, s) && AskersOk(s) && Enabled(c, s, a) && Fine(a) && CarefulAction(s, a) && i < |s.tasks|
    requires i < |Apply(c, s, a).tasks|
    ensures AskerOk(Apply(c, s, a), i)
  {
    var s' := Apply(c, s, a);
    AskersAfter(c, s, a, i);
    assert AskerOk(s, i);
    if s'.tasks[i].Asking? {
      var id := s'.tasks[i].id;
      assert IdGood(c, s, id);
      UntokenedIsUntouched(c, s, a, id);
      forall j | 0 <= j < |s'.tasks| && j != i && s'.tasks[j].Asking? ensures s'.tasks[j].id != id {
        AskersAfter(c, s, a, j);
      }
    }
  }

  lemma CarefulIsDisciplinedNow(c: Config, s: State, a: Action)
    requires Inv(c, s) && AskersOk(s) && Enabled(c, s, a) && Fine(a) && CarefulAction(s, a)
    ensures Disciplined(s, a)
  {
    if a.Ask? || a.ManualRetry? {
      assert AskerOk(s, a.i) && IdGood(c, s, a.id);
    }
  }

  /** It is enough: a FAILED row never has a token, and nothing but a manual retry changes it. */
  lemma {:induction false} CarefulIsDisciplined(c: Config, s: State, run: seq<Action>)
    requires Inv(c, s) && AskersOk(s) && Legal(c, s, run) && FineRun(run) && Careful(c, s, run)
    ensures DisciplinedRun(c, s, run)
    decreases |run|
  {
    if run != [] {
      assert Fine(run[0]);
      var s' := Apply(c, s, run[0]);
      CarefulIsDisciplinedNow(c, s, run[0]);
      ActionKeeps(c, s, run[0]);
      forall i | 0 <= i < |s'.tasks| ensures AskerOk(s', i) {
        ActionKeepsTasks(c, s, run[0]);
        CarefulKeepsAsker(c, s, run[0], i);
      }
      CarefulIsDisciplined(c, s', run[1..]);
    }
  }

  /** Never sent twice, under that rule. */
  lemma NeverSentTwiceWhenCareful(c: Config, tasks: nat, run: seq<Action>, base: string, ch: Channel, id1: Id, id2: Id)
    requires Legal(c, Init(tasks), run) && FineRun(run) && Careful(c, Init(tasks), run)
    requires var s := Exec(c, Init(tasks), run);
             && id1 in s.notes && id2 in s.notes
             && s.notes[id1].row.key == ChannelKey(base, ch) && s.notes[id2].row.key == ChannelKey(base, ch)
    ensures id1 == id2 && Deliveries(Exec(c, Init(tasks), run).notes[id1]) <= 1
  {
    InitIsGood(c, tasks);
    CarefulIsDisciplined(c, Init(tasks), run);
    NeverSentTwice(c, tasks, run, base, ch, id1, id2);
  }

  lemma InvBalances(c: Config, s: State, id: Id)
    ensures Inv(c, s) ==> Balanced(s, id)
  {
    if Inv(c, s) { assert IdGood(c, s, id); }
  }

  lemma InvIsClean(c: Config, s: State, id: Id)
    requires id in s.notes
    ensures Inv(c, s) ==> CleanNote(s.notes[id])
  {
    if Inv(c, s) { assert IdGood(c, s, id); }
  }

  /** The commit of a manual retry, whatever has happened since its read: it keeps ids in one place and the
      rest of the invariant exactly when the row has no token and was never accepted at that moment. If the
      row is still as admissible as it was when read, that is exactly when it is FAILED or its token was lost. */
  lemma ManualRetryIsSafeWithoutToken(c: Config, s: State, i: nat, id: Id)
    requires Inv(c, s) && Enabled(c, s, ManualRetry(i, id))
    ensures Inv(c, Apply(c, s, ManualRetry(i, id))) <==> Tokens(s, id) == 0 && Deliveries(s.notes[id]) == 0
    ensures Tokens(Apply(c, s, ManualRetry(i, id)), id) == Tokens(s, id) + 1
    ensures s.notes[id].row.status !in {Sent, Queued} ==>
              && Deliveries(s.notes[id]) == 0
              && (Tokens(s, id) == 0 <==> s.notes[id].row.status == Failed || id in s.stranded)
  {
    var s' := Apply(c, s, ManualRetry(i, id));
    assert IdGood(c, s, id);
    HeldBoth(s, i, s'.tasks[i], id);
    if Tokens(s, id) != 0 {
      assert !Balanced(s', id);
      InvBalances(c, s', id);
    } else if Deliveries(s.notes[id]) != 0 {
      InvIsClean(c, s', id);
    } else {
      ManualKeeps(c, s, i, id);
    }
  }

  /** As long as no token has been lost, the commit is safe exactly if the row is FAILED at that moment. */
  lemma ManualRetryIsSafeOnFailed(c: Config, s: State, i: nat, id: Id)
    requires Inv(c, s) && Enabled(c, s, ManualRetry(i, id)) && s.stranded == {}
    ensures Inv(c, Apply(c, s, ManualRetry(i, id))) <==> s.notes[id].row.status == Failed
  {
    assert IdGood(c, s, id);
    ManualRetryIsSafeWithoutToken(c, s, i, id);
    MidIsHeld(s.tasks, id);
  }
}
