/** Dead letters: which rows end with one, over whole runs of the interleaved engine. */
module Letters {
  import opened Model
  import opened Dispatch
  import opened Engine
  import opened Exclusivity
  import opened Accounting
  import opened Safety

  /** The letter that reports a FAILED row as it is. */
  function ReportOf(id: Id, row: Row): DeadLetter
    requires row.errorCode.Some?
  {
    DeadLetter(id, row.key, row.event, row.channel, row.recipient, row.errorCode.value, row.retryCount)
  }

  /** The letter is in the dead-letter queue, or a dispatch is about to put it there. */
  ghost predicate Sealed(s: State, letter: DeadLetter) {
    letter in s.dlq || exists i :: 0 <= i < |s.tasks| && s.tasks[i] == Burying(letter)
  }

  predicate Exhausted(c: Config, row: Row) {
    row.status == Failed && row.channel in c.providers && row.errorCode.Some? && Retryable(row.errorCode.value)
  }

  ghost predicate Reported(c: Config, s: State, id: Id) {
    id in s.notes && Exhausted(c, s.notes[id].row) ==> Sealed(s, ReportOf(id, s.notes[id].row))
  }

  ghost predicate AllReported(c: Config, s: State) {
    forall id :: Reported(c, s, id)
  }

  /** No dispatch loses its letter: none dies, and no publish fails, between the FAILED commit and the
      dead-letter queue. */
  predicate LettersGetThrough(c: Config, s: State, run: seq<Action>)
    requires Legal(c, s, run)
    decreases |run|
  {
    run == [] || ((run[0].Drop? ==> !s.tasks[run[0].i].Burying?) && LettersGetThrough(c, Apply(c, s, run[0]), run[1..]))
  }

  /** The step that exhausts a row leaves the letter to its task. */
  lemma StepReports(c: Config, id: Id, phase: Phase, n: Note, x: Input)
    requires Fresh(c, phase, n) && Active(n.row)
    ensures var (m, turn) := Step(c, id, phase, n, x);
            Exhausted(c, m.row) ==> turn == Done(Effect.Bury(ReportOf(id, m.row)))
  {}

  lemma WorkReports(c: Config, s: State, i: nat, x: Input, id: Id)
    requires Inv(c, s) && i < |s.tasks| && s.tasks[i].Dispatching? && Reported(c, s, id)
    ensures Reported(c, WorkOn(c, s, i, x), id)
  {
    var t, s' := s.tasks[i], WorkOn(c, s, i, x);
    assert TaskGood(c, s.notes, t);
    HolderIsAlone(c, s, i);
    StepReports(c, t.id, t.phase, s.notes[t.id], x);
    assert |s'.tasks| == |s.tasks| && s'.dlq == s.dlq;
    if id == t.id {
      if Exhausted(c, s'.notes[id].row) { assert s'.tasks[i] == Burying(ReportOf(id, s'.notes[id].row)); }
    } else if id in s.notes && Exhausted(c, s.notes[id].row) {
      var letter := ReportOf(id, s.notes[id].row);
      if letter !in s.dlq {
        var k :| 0 <= k < |s.tasks| && s.tasks[k] == Burying(letter);
        assert s'.tasks[k] == Burying(letter);
      }
    }
  }

  lemma OnlyBuryEndsBurying(c: Config, s: State, a: Action)
    requires Enabled(c, s, a) && Plain(a) && s.tasks[a.i].Burying?
    ensures a.Bury? || a.Drop?
  {}

  /** An action that loses no letter keeps it sealed. */
  lemma SealStays(c: Config, s: State, a: Action, letter: DeadLetter)
    requires Enabled(c, s, a) && Plain(a) && Sealed(s, letter) && (a.Drop? ==> !s.tasks[a.i].Burying?)
    ensures Sealed(Apply(c, s, a), letter)
  {
    OneTaskChanges(c, s, a);
    var s' := Apply(c, s, a);
    if letter !in s.dlq {
      var k :| 0 <= k < |s.tasks| && s.tasks[k] == Burying(letter);
      if k == a.i {
        OnlyBuryEndsBurying(c, s, a);
        assert s'.dlq[|s.dlq|] == letter;
      } else {
        assert s'.tasks[k] == Burying(letter);
      }
    }
  }

  lemma WritesPending(c: Config, s: State, a: Action, id: Id)
    requires Enabled(c, s, a) && Plain(a) && id in Apply(c, s, a).notes && Exhausted(c, Apply(c, s, a).notes[id].row)
    ensures id in s.notes && s.notes[id].row == Apply(c, s, a).notes[id].row
  {
    if !a.Create? && !a.ManualRetry? { OthersLeaveRows(c, s, a); }
  }

  lemma ActionReports(c: Config, s: State, a: Action, id: Id)
    requires Inv(c, s) && Enabled(c, s, a) && Fine(a) && (a.Drop? ==> !s.tasks[a.i].Burying?) && Reported(c, s, id)
    ensures Reported(c, Apply(c, s, a), id)
  {
    var s' := Apply(c, s, a);
    if a.Work? {
      WorkReports(c, s, a.i, a.x, id);
    } else if Plain(a) {
      if id in s'.notes && Exhausted(c, s'.notes[id].row) {
        WritesPending(c, s, a, id);
        SealStays(c, s, a, ReportOf(id, s.notes[id].row));
      }
    } else {
      assert s'.notes == s.notes && s'.tasks == s.tasks && s'.dlq == s.dlq;
    }
  }

  lemma {:induction false} RunReports(c: Config, s: State, run: seq<Action>)
    requires Inv(c, s) && AllReported(c, s)
    requires Legal(c, s, run) && FineRun(run) && DisciplinedRun(c, s, run) && LettersGetThrough(c, s, run)
    ensures AllReported(c, Exec(c, s, run))
    decreases |run|
  {
    if run != [] {
      assert Fine(run[0]);
      var s' := Apply(c, s, run[0]);
      ActionKeeps(c, s, run[0]);
      forall id ensures Reported(c, s', id) {
        assert Reported(c, s, id);
        ActionReports(c, s, run[0], id);
      }
      RunReports(c, s', run[1..]);
    }
  }

  /** Which FAILED rows have a dead letter: of those on channels with a provider, exactly the ones whose last
      error was retryable, and the letter carries the row as it is. It is in the dead-letter queue once no task
      is at work, unless a fault took it on the way there. */
  lemma ExhaustedRowsAreReported(c: Config, tasks: nat, run: seq<Action>, id: Id)
    requires Disciplining(c, tasks, run) && LettersGetThrough(c, Init(tasks), run)
    requires var s := Exec(c, Init(tasks), run);
             && id in s.notes && s.notes[id].row.status == Failed && s.notes[id].row.channel in c.providers
    ensures var s := Exec(c, Init(tasks), run);
            var row := s.notes[id].row;
            && row.errorCode.Some?
            && (var letter := DeadLetter(
                  id, row.key, row.event, row.channel, row.recipient, row.errorCode.value, row.retryCount);
                && (row.errorCode.value !in {InvalidRecipient, InvalidToken} <==>
                      letter in s.dlq || exists i :: 0 <= i < |s.tasks| && s.tasks[i] == Burying(letter))
                && ((forall i :: 0 <= i < |s.tasks| ==> s.tasks[i].Idle?) ==>
                      (row.errorCode.value !in {InvalidRecipient, InvalidToken} <==> letter in s.dlq)))
  {
    InitIsGood(c, tasks);
    RunKeeps(c, Init(tasks), run);
    RunReports(c, Init(tasks), run);
    var s := Exec(c, Init(tasks), run);
    assert IdGood(c, s, id) && Reported(c, s, id);
    var letter := ReportOf(id, s.notes[id].row);
    if Sealed(s, letter) { SealedIsRetryable(c, s, letter); }
  }

  lemma SealedIsRetryable(c: Config, s: State, letter: DeadLetter)
    requires Inv(c, s) && Sealed(s, letter)
    ensures Retryable(letter.errorCode)
  {
    if letter in s.dlq {
      var k :| 0 <= k < |s.dlq| && s.dlq[k] == letter;
      assert LetterOk(c, s.dlq[k]);
    } else {
      var i :| 0 <= i < |s.tasks| && s.tasks[i] == Burying(letter);
      assert TaskGood(c, s.notes, s.tasks[i]);
    }
  }
}
