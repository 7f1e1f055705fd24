/** What happens outside dispatches happens alike on the interleaved and on the atomic side. */
module Sharing {
  import opened Model
  import opened Dispatch
  import opened ChannelKeys
  import opened Engine
  import opened Exclusivity
  import opened Matching

  predicate Shared(s: State, act: Action) {
    && Fine(act) && !act.Work?
    && (act.Drop? ==> act.i < |s.tasks| && !s.tasks[act.i].Dispatching?)
  }

  function HeardAfter(act: Action, heard: seq<seq<Input>>): seq<seq<Input>> {
    if act.Pop? && act.i < |heard| then heard[act.i := []] else heard
  }

  lemma SharedIsEnabled(c: Config, s: State, a: State, heard: seq<seq<Input>>, act: Action)
    requires Inv(c, s) && Refines(c, s, a, heard) && Enabled(c, s, act) && Shared(s, act) && Disciplined(s, act)
    ensures Enabled(c, a, act)
  {
    if !act.PopLost? && !act.Expire? { assert Linked(c, s, a, heard, act.i); }
    if act.Create? {
      forall j | j in a.notes ensures a.notes[j].row.key != ChannelKey(act.base, act.channel) {
        assert NoteMatches(s, a, j);
      }
    }
    if act.Ask? || act.ManualRetry? { UntokenedMatches(c, s, a, heard, act.id); }
  }

  /** A row without a token is the same on both sides. */
  lemma UntokenedMatches(c: Config, s: State, a: State, heard: seq<seq<Input>>, id: Id)
    requires Refines(c, s, a, heard) && id in s.notes && Tokens(s, id) == 0
    ensures id in a.notes && a.notes[id] == s.notes[id] && !InDispatch(s, id)
  {
    NoTokenNoDispatch(s, id);
    assert NoteMatches(s, a, id);
  }

  lemma NoTokenNoDispatch(s: State, id: Id)
    requires Tokens(s, id) == 0
    ensures !InDispatch(s, id)
  {
    if InDispatch(s, id) {
      var i :| 0 <= i < |s.tasks| && s.tasks[i].Dispatching? && s.tasks[i].id == id;
      HeldAt(s.tasks, i, id, false);
    }
  }

  /** No row changes; one task not dispatching changes alike on both sides, perhaps to a dispatch that
      has not begun. */
  lemma TaskRefines(c: Config, s: State, s': State, a: State, a': State, heard: seq<seq<Input>>, i: nat, t: Task)
    requires Refines(c, s, a, heard) && i < |s.tasks| && !s.tasks[i].Dispatching? && SameElsewhere(s', a')
    requires s'.notes == s.notes && a'.notes == a.notes
    requires s'.tasks == s.tasks[i := t] && a'.tasks == a.tasks[i := t]
    requires t.Dispatching? ==> t.phase.Fetched? && t.id in s.notes && !InDispatch(s, t.id)
    ensures Refines(c, s', a', if t.Dispatching? then heard[i := []] else heard)
  {
    var heard' := if t.Dispatching? then heard[i := []] else heard;
    if t.Dispatching? { assert NoteMatches(s, a, t.id); }
    forall j | 0 <= j < |s'.tasks| ensures Linked(c, s', a', heard', j) {
      assert Linked(c, s, a, heard, j);
    }
    forall k | k in s'.notes ensures NoteMatches(s', a', k) {
      assert NoteMatches(s, a, k);
      if InDispatch(s, k) {
        var j :| 0 <= j < |s.tasks| && s.tasks[j].Dispatching? && s.tasks[j].id == k;
        assert s'.tasks[j] == s.tasks[j];
      }
    }
  }

  /** A row that nobody dispatches is written alike on both sides. */
  lemma NoteRefines(c: Config, s: State, s': State, a: State, a': State, heard: seq<seq<Input>>, i: nat, t: Task,
      id: Id, n: Note)
    requires Refines(c, s, a, heard) && i < |s.tasks| && !s.tasks[i].Dispatching? && SameElsewhere(s', a')
    requires s'.notes == s.notes[id := n] && a'.notes == a.notes[id := n] && !InDispatch(s, id)
    requires s'.tasks == s.tasks[i := t] && a'.tasks == a.tasks[i := t] && !t.Dispatching?
    ensures Refines(c, s', a', heard)
  {
    forall j | 0 <= j < |s'.tasks| ensures Linked(c, s', a', heard, j) {
      assert Linked(c, s, a, heard, j);
    }
    forall k | k in s'.notes ensures NoteMatches(s', a', k) {
      if k in s.notes { assert NoteMatches(s, a, k); }
      if InDispatch(s, k) {
        var j :| 0 <= j < |s.tasks| && s.tasks[j].Dispatching? && s.tasks[j].id == k;
        assert s'.tasks[j] == s.tasks[j];
      }
    }
  }

  lemma BrokerStep(c: Config, s: State, s': State, a: State, a': State, heard: seq<seq<Input>>)
    requires Refines(c, s, a, heard) && SameElsewhere(s', a')
    requires s'.notes == s.notes && a'.notes == a.notes && s'.tasks == s.tasks && a'.tasks == a.tasks
    ensures Refines(c, s', a', heard)
  {
    forall j | 0 <= j < |s'.tasks| ensures Linked(c, s', a', heard, j) { assert Linked(c, s, a, heard, j); }
    forall k | k in s'.notes ensures NoteMatches(s', a', k) {
      assert NoteMatches(s, a, k);
      assert InDispatch(s', k) == InDispatch(s, k);
    }
  }

  lemma CreateOrRetry(c: Config, s: State, a: State, heard: seq<seq<Input>>, act: Action)
    requires Inv(c, s) && Refines(c, s, a, heard) && Enabled(c, s, act) && Enabled(c, a, act) && Disciplined(s, act)
    requires act.Create? || act.ManualRetry?
    ensures Refines(c, Apply(c, s, act), Apply(c, a, act), heard)
  {
    assert Linked(c, s, a, heard, act.i);
    if act.Create? {
      assert IdGood(c, s, act.id);
      CreateStep(c, s, a, heard, act.i, act.id, NewRow(act.base, act.event, act.channel, act.recipient, act.priority));
    } else {
      RetryStep(c, s, a, heard, act.i, act.id);
    }
  }

  lemma CreateStep(c: Config, s: State, a: State, heard: seq<seq<Input>>, i: nat, id: Id, row: Row)
    requires Refines(c, s, a, heard) && i < |s.tasks| && s.tasks[i].Idle? && id !in s.notes && Tokens(s, id) == 0
    ensures Refines(c, CreateRow(s, i, id, row), CreateRow(a, i, id, row), heard)
  {
    NoTokenNoDispatch(s, id);
    NoteRefines(c, s, CreateRow(s, i, id, row), a, CreateRow(a, i, id, row), heard, i,
                Enqueuing(id, row.priority, false), id, Note(row, NO_HISTORY));
  }

  lemma RetryStep(c: Config, s: State, a: State, heard: seq<seq<Input>>, i: nat, id: Id)
    requires Refines(c, s, a, heard) && i < |s.tasks| && s.tasks[i].Asking? && id in s.notes && Tokens(s, id) == 0
    ensures a.tasks[i] == s.tasks[i] && id in a.notes
    ensures Refines(c, RetryByHand(s, i, id), RetryByHand(a, i, id), heard)
  {
    assert Linked(c, s, a, heard, i);
    UntokenedMatches(c, s, a, heard, id);
    var s' := RetryByHand(s, i, id);
    NoteRefines(c, s, s', a, RetryByHand(a, i, id), heard, i, s'.tasks[i], id, s'.notes[id]);
  }

  lemma HandlerStep(c: Config, s: State, a: State, heard: seq<seq<Input>>, i: nat, id: Id)
    requires Refines(c, s, a, heard) && i < |s.tasks|
    requires s.tasks[i].Idle? || s.tasks[i].Enqueuing? || s.tasks[i].Handling?
    ensures Refines(c, TakeResult(s, i, id), TakeResult(a, i, id), heard)
    ensures Refines(c, Return(s, i, id), Return(a, i, id), heard)
  {
    assert Linked(c, s, a, heard, i);
    TaskRefines(c, s, TakeResult(s, i, id), a, TakeResult(a, i, id), heard, i, Handling(id));
    TaskRefines(c, s, Return(s, i, id), a, Return(a, i, id), heard, i, Idle);
  }

  lemma EnqueueStep(c: Config, s: State, a: State, heard: seq<seq<Input>>, i: nat, ms: nat)
    requires Refines(c, s, a, heard) && i < |s.tasks| && s.tasks[i].Enqueuing?
    ensures a.tasks[i] == s.tasks[i]
    ensures Refines(c, EnqueueToken(s, i, ms), EnqueueToken(a, i, ms), heard)
  {
    assert Linked(c, s, a, heard, i);
    var s' := EnqueueToken(s, i, ms);
    TaskRefines(c, s, s', a, EnqueueToken(a, i, ms), heard, i, s'.tasks[i]);
  }

  lemma TaskEnds(c: Config, s: State, a: State, heard: seq<seq<Input>>, i: nat)
    requires Refines(c, s, a, heard) && i < |s.tasks| && !s.tasks[i].Dispatching?
    ensures a.tasks[i] == s.tasks[i]
    ensures Refines(c, DropTask(s, i), DropTask(a, i), heard)
    ensures Refines(c, SetTask(s, i, Idle), SetTask(a, i, Idle), heard)
  {
    assert Linked(c, s, a, heard, i);
    TaskRefines(c, s, DropTask(s, i), a, DropTask(a, i), heard, i, Idle);
    TaskRefines(c, s, SetTask(s, i, Idle), a, SetTask(a, i, Idle), heard, i, Idle);
  }

  lemma BuryStep(c: Config, s: State, a: State, heard: seq<seq<Input>>, i: nat)
    requires Refines(c, s, a, heard) && i < |s.tasks| && s.tasks[i].Burying?
    ensures a.tasks[i] == s.tasks[i]
    ensures var l := s.tasks[i].letter;
            Refines(c, SetTask(s.(dlq := s.dlq + [l]), i, Idle), SetTask(a.(dlq := a.dlq + [l]), i, Idle), heard)
  {
    assert Linked(c, s, a, heard, i);
    var l := s.tasks[i].letter;
    var s', a' := SetTask(s.(dlq := s.dlq + [l]), i, Idle), SetTask(a.(dlq := a.dlq + [l]), i, Idle);
    TaskRefines(c, s, s', a, a', heard, i, Idle);
  }

  lemma PopStep(c: Config, s: State, a: State, heard: seq<seq<Input>>, i: nat, id: Id)
    requires Inv(c, s) && Refines(c, s, a, heard) && i < |s.tasks| && s.tasks[i].Idle? && id in s.queue
    ensures Refines(c, PopMin(s, i, id), PopMin(a, i, id), heard[i := []])
  {
    assert Linked(c, s, a, heard, i);
    PlacedIsWaiting(c, s, id);
    if InDispatch(s, id) {
      var j :| 0 <= j < |s.tasks| && s.tasks[j].Dispatching? && s.tasks[j].id == id;
      HeldAt(s.tasks, j, id, false);
    }
    TaskRefines(c, s, PopMin(s, i, id), a, PopMin(a, i, id), heard, i, Dispatching(id, Fetched));
  }

  lemma ReadStep(c: Config, s: State, a: State, heard: seq<seq<Input>>, i: nat)
    requires Inv(c, s) && Refines(c, s, a, heard) && i < |s.tasks| && s.tasks[i].Handling?
    ensures a.tasks[i] == s.tasks[i]
    ensures Refines(c, ReadForRetry(s, i), ReadForRetry(a, i), heard)
  {
    assert Linked(c, s, a, heard, i);
    assert TaskGood(c, s.notes, s.tasks[i]);
    assert NoteMatches(s, a, s.tasks[i].id);
    var s' := ReadForRetry(s, i);
    TaskRefines(c, s, s', a, ReadForRetry(a, i), heard, i, s'.tasks[i]);
  }

  lemma AskStep(c: Config, s: State, a: State, heard: seq<seq<Input>>, i: nat, id: Id)
    requires Refines(c, s, a, heard) && i < |s.tasks| && s.tasks[i].Idle? && id in s.notes && Tokens(s, id) == 0
    ensures id in a.notes && Refines(c, AskRow(s, i, id), AskRow(a, i, id), heard)
  {
    assert Linked(c, s, a, heard, i);
    UntokenedMatches(c, s, a, heard, id);
    TaskRefines(c, s, AskRow(s, i, id), a, AskRow(a, i, id), heard, i, Asking(id, s.notes[id].row.retryCount));
  }

  lemma SharedStep(c: Config, s: State, a: State, heard: seq<seq<Input>>, act: Action)
    requires Inv(c, s) && Refines(c, s, a, heard) && Enabled(c, s, act) && Shared(s, act) && Disciplined(s, act)
    ensures Enabled(c, a, act)
    ensures Refines(c, Apply(c, s, act), Apply(c, a, act), HeardAfter(act, heard))
  {
    SharedIsEnabled(c, s, a, heard, act);
    if act.PopLost? || act.Expire? {
      BrokerStep(c, s, Apply(c, s, act), a, Apply(c, a, act), heard);
    } else if act.Create? || act.ManualRetry? {
      CreateOrRetry(c, s, a, heard, act);
    } else {
      TaskStep(c, s, a, heard, act);
    }
  }

  lemma TaskStep(c: Config, s: State, a: State, heard: seq<seq<Input>>, act: Action)
    requires Inv(c, s) && Refines(c, s, a, heard) && Enabled(c, s, act) && Enabled(c, a, act) && Shared(s, act)
    requires Disciplined(s, act)
    requires !act.PopLost? && !act.Expire? && !act.Create? && !act.ManualRetry? && !act.RedeliverLate?
    ensures Refines(c, Apply(c, s, act), Apply(c, a, act), HeardAfter(act, heard))
  {
    match act
    case Enqueue(i, ms) => EnqueueStep(c, s, a, heard, i, ms);
    case Pop(i, id) => PopStep(c, s, a, heard, i, id);
    case Drop(i) => TaskEnds(c, s, a, heard, i);
    case Ack(i) => TaskEnds(c, s, a, heard, i);
    case Bury(i) => BuryStep(c, s, a, heard, i);
    case Take(i, id) => HandlerStep(c, s, a, heard, i, id);
    case Redeliver(i) => assert Linked(c, s, a, heard, i); HandlerStep(c, s, a, heard, i, s.tasks[i].id);
    case Read(i) => ReadStep(c, s, a, heard, i);
    case Ask(i, id) => AskStep(c, s, a, heard, i, id);
  }
}
