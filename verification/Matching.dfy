/** How a state of the interleaved engine matches one of the atomic system, and what a dispatch under way
    does to the match. The atomic side performs a dispatch when the interleaved side finishes it; until then
    its row is still as the dispatch found it. */
module Matching {
  import opened Model
  import opened Dispatch
  import opened Engine
  import opened Exclusivity

  /** What task i has heard so far, and how its progress looks from the atomic side: the id popped, the
      row untouched. */
  ghost predicate Linked(c: Config, s: State, a: State, heard: seq<seq<Input>>, i: nat)
    requires i < |s.tasks| == |a.tasks| == |heard|
  {
    if s.tasks[i].Dispatching? then
      var id := s.tasks[i].id;
      && a.tasks[i] == Dispatching(id, Fetched)
      && id in a.notes && id in s.notes
      && Run(c, id, Fetched, a.notes[id], heard[i]) == (s.notes[id], More(s.tasks[i].phase))
    else
      a.tasks[i] == s.tasks[i]
  }

  predicate InDispatch(s: State, id: Id) {
    exists i :: 0 <= i < |s.tasks| && s.tasks[i].Dispatching? && s.tasks[i].id == id
  }

  ghost predicate SameElsewhere(s: State, a: State) {
    && a.queue == s.queue && a.retries == s.retries && a.results == s.results && a.dlq == s.dlq
    && a.stranded == s.stranded && a.points == s.points
    && a.dropped == s.dropped && a.absorbed == s.absorbed && a.redelivered == s.redelivered
    && a.notes.Keys == s.notes.Keys
  }

  ghost predicate NoteMatches(s: State, a: State, id: Id)
    requires id in s.notes && id in a.notes
  {
    && SameIdentity(a.notes[id].row, s.notes[id].row)
    && (InDispatch(s, id) || a.notes[id] == s.notes[id])
  }

  ghost predicate Refines(c: Config, s: State, a: State, heard: seq<seq<Input>>) {
    && |a.tasks| == |s.tasks| == |heard|
    && SameElsewhere(s, a)
    && (forall i :: 0 <= i < |s.tasks| ==> Linked(c, s, a, heard, i))
    && (forall id :: id in s.notes ==> NoteMatches(s, a, id))
  }

  lemma SameTokens(c: Config, s: State, a: State, heard: seq<seq<Input>>, id: Id)
    requires Refines(c, s, a, heard)
    ensures Tokens(a, id) == Tokens(s, id)
  {
    forall i | 0 <= i < |s.tasks| ensures Token(a.tasks[i]) == Token(s.tasks[i]) {
      assert Linked(c, s, a, heard, i);
    }
    HeldAgrees(a.tasks, s.tasks, id);
  }

  /** Nobody else dispatches the id that task i holds. */
  lemma OnlyDispatcher(c: Config, s: State, i: nat)
    requires Inv(c, s) && i < |s.tasks| && Token(s.tasks[i]).Some?
    ensures forall j :: 0 <= j < |s.tasks| && j != i && s.tasks[j].Dispatching? ==>
            s.tasks[j].id != Token(s.tasks[i]).value
  {
    HolderIsAlone(c, s, i);
    forall j | 0 <= j < |s.tasks| && j != i && s.tasks[j].Dispatching?
      ensures s.tasks[j].id != Token(s.tasks[i]).value
    {
      assert Token(s.tasks[j]) == Some(s.tasks[j].id);
    }
  }

  // ---------------------------------------------------------------------------------------------
  // A step inside a dispatch: nothing happens on the atomic side

  /** Task i of s has taken one more step of its dispatch; heard' adds its answer. */
  ghost predicate Advance(c: Config, s: State, a: State, heard: seq<seq<Input>>, i: nat, xs: seq<Input>,
      s': State, heard': seq<seq<Input>>) {
    && Inv(c, s) && Refines(c, s, a, heard) && i < |s.tasks| && s.tasks[i].Dispatching?
    && (var id := s.tasks[i].id;
        && id in s.notes && id in a.notes && |s'.tasks| == |s.tasks| && s'.tasks[i].Dispatching? && s'.tasks[i].id == id
        && id in s'.notes && SameIdentity(s.notes[id].row, s'.notes[id].row)
        && Run(c, id, Fetched, a.notes[id], xs) == (s'.notes[id], More(s'.tasks[i].phase))
        && s' == s.(notes := s.notes[id := s'.notes[id]], tasks := s.tasks[i := s'.tasks[i]])
        && heard' == heard[i := xs])
  }

  lemma AdvanceLinks(c: Config, s: State, a: State, heard: seq<seq<Input>>, i: nat, xs: seq<Input>, s': State,
      heard': seq<seq<Input>>, j: nat)
    requires Advance(c, s, a, heard, i, xs, s', heard') && j < |s.tasks|
    ensures Linked(c, s', a, heard', j)
  {
    OnlyDispatcher(c, s, i);
    assert Linked(c, s, a, heard, i) && Linked(c, s, a, heard, j);
  }

  lemma AdvanceMatches(c: Config, s: State, a: State, heard: seq<seq<Input>>, i: nat, xs: seq<Input>, s': State,
      heard': seq<seq<Input>>, k: Id)
    requires Advance(c, s, a, heard, i, xs, s', heard') && k in s'.notes
    ensures k in a.notes && NoteMatches(s', a, k)
  {
    assert NoteMatches(s, a, k);
    if k == s.tasks[i].id {
      assert s'.tasks[i].Dispatching? && s'.tasks[i].id == k;
    } else if InDispatch(s, k) {
      var j :| 0 <= j < |s.tasks| && s.tasks[j].Dispatching? && s.tasks[j].id == k;
      assert s'.tasks[j] == s.tasks[j];
    }
  }

  lemma AdvanceRefines(c: Config, s: State, a: State, heard: seq<seq<Input>>, i: nat, xs: seq<Input>, s': State,
      heard': seq<seq<Input>>)
    requires Advance(c, s, a, heard, i, xs, s', heard')
    ensures Refines(c, s', a, heard')
  {
    forall j | 0 <= j < |s'.tasks| ensures Linked(c, s', a, heard', j) {
      AdvanceLinks(c, s, a, heard, i, xs, s', heard', j);
    }
    forall k | k in s'.notes ensures NoteMatches(s', a, k) {
      AdvanceMatches(c, s, a, heard, i, xs, s', heard', k);
    }
  }

  lemma InnerStep(c: Config, s: State, a: State, heard: seq<seq<Input>>, i: nat, x: Input)
    requires Inv(c, s) && Refines(c, s, a, heard) && i < |s.tasks| && s.tasks[i].Dispatching?
    requires s.tasks[i].id in s.notes && Step(c, s.tasks[i].id, s.tasks[i].phase, s.notes[s.tasks[i].id], x).1.More?
    ensures Refines(c, WorkOn(c, s, i, x), a, heard[i := heard[i] + [x]])
  {
    var t := s.tasks[i];
    var (n, turn) := Step(c, t.id, t.phase, s.notes[t.id], x);
    assert Linked(c, s, a, heard, i);
    RunSnoc(c, t.id, Fetched, a.notes[t.id], heard[i], x);
    StepSameIdentity(c, t.id, t.phase, s.notes[t.id], x);
    MoreOnlyAdvances(s, i, t.id, n, turn.phase);
    AdvanceRefines(c, s, a, heard, i, heard[i] + [x], WorkOn(c, s, i, x), heard[i := heard[i] + [x]]);
  }

  lemma MoreOnlyAdvances(s: State, i: nat, id: Id, n: Note, phase: Phase)
    requires i < |s.tasks|
    ensures Settle(s, i, id, n, More(phase)) == s.(notes := s.notes[id := n],
            tasks := s.tasks[i := Dispatching(id, phase)])
  {}

  lemma StepSameIdentity(c: Config, id: Id, phase: Phase, n: Note, x: Input)
    ensures SameIdentity(n.row, Step(c, id, phase, n, x).0.row)
  {}

  // ---------------------------------------------------------------------------------------------
  // The end of a dispatch: the whole dispatch on the atomic side

  /** Task i of s stops dispatching and leaves row n; task i of a does the same in one action. */
  lemma Rejoin(c: Config, s: State, a: State, heard: seq<seq<Input>>, i: nat, n: Note, s': State, a': State)
    requires Inv(c, s) && Refines(c, s, a, heard) && i < |s.tasks| && s.tasks[i].Dispatching?
    requires s.tasks[i].id in s.notes && SameIdentity(s.notes[s.tasks[i].id].row, n.row)
    requires s'.notes == s.notes[s.tasks[i].id := n] && a'.notes == a.notes[s.tasks[i].id := n]
    requires |s'.tasks| == |s.tasks| && !s'.tasks[i].Dispatching?
    requires s'.tasks == s.tasks[i := s'.tasks[i]] && a'.tasks == a.tasks[i := s'.tasks[i]]
    requires SameElsewhere(s', a')
    ensures Refines(c, s', a', heard)
  {
    var id := s.tasks[i].id;
    OnlyDispatcher(c, s, i);
    forall j | 0 <= j < |s'.tasks| ensures Linked(c, s', a', heard, j) {
      assert Linked(c, s, a, heard, j);
    }
    forall k | k in s'.notes ensures NoteMatches(s', a', k) {
      assert NoteMatches(s, a, k);
      if k != id && InDispatch(s, k) {
        var j :| 0 <= j < |s.tasks| && s.tasks[j].Dispatching? && s.tasks[j].id == k;
        assert s'.tasks[j] == s.tasks[j];
      }
    }
  }

  lemma SettleBoth(c: Config, s: State, a: State, heard: seq<seq<Input>>, i: nat, n: Note, e: Effect)
    requires Inv(c, s) && Refines(c, s, a, heard) && i < |s.tasks| && s.tasks[i].Dispatching?
    requires s.tasks[i].id in s.notes && SameIdentity(s.notes[s.tasks[i].id].row, n.row)
    ensures Refines(c, Settle(s, i, s.tasks[i].id, n, Done(e)), Settle(a, i, s.tasks[i].id, n, Done(e)), heard)
  {
    var id := s.tasks[i].id;
    var s', a' := Settle(s, i, id, n, Done(e)), Settle(a, i, id, n, Done(e));
    assert a'.notes.Keys == s'.notes.Keys;
    Rejoin(c, s, a, heard, i, n, s', a');
  }

  lemma LastStep(c: Config, s: State, a: State, heard: seq<seq<Input>>, i: nat, x: Input)
    requires Inv(c, s) && Refines(c, s, a, heard) && i < |s.tasks| && s.tasks[i].Dispatching?
    requires s.tasks[i].id in s.notes && Step(c, s.tasks[i].id, s.tasks[i].phase, s.notes[s.tasks[i].id], x).1.Done?
    ensures Enabled(c, a, DispatchAtOnce(i, heard[i] + [x]))
    ensures Refines(c, WorkOn(c, s, i, x), Apply(c, a, DispatchAtOnce(i, heard[i] + [x])), heard)
  {
    var t := s.tasks[i];
    var (n, turn) := Step(c, t.id, t.phase, s.notes[t.id], x);
    assert Linked(c, s, a, heard, i);
    RunSnoc(c, t.id, Fetched, a.notes[t.id], heard[i], x);
    StepSameIdentity(c, t.id, t.phase, s.notes[t.id], x);
    SettleBoth(c, s, a, heard, i, n, turn.effect);
  }

  lemma CrashRuns(c: Config, a: State, i: nat, id: Id, xs: seq<Input>, n: Note)
    requires i < |a.tasks| && a.tasks[i] == Dispatching(id, Fetched) && id in a.notes
    requires Run(c, id, Fetched, a.notes[id], xs).0 == n && Run(c, id, Fetched, a.notes[id], xs).1.More?
    ensures Enabled(c, a, CrashAtOnce(i, xs))
    ensures var (_, turn) := Run(c, id, Fetched, a.notes[id], xs);
            Apply(c, a, CrashAtOnce(i, xs)) ==
            SetTask(Lose(a.(notes := a.notes[id := n]), id, PointOf(Dispatching(id, turn.phase))), i, Idle)
  {}

  lemma DeathInside(c: Config, s: State, a: State, heard: seq<seq<Input>>, i: nat)
    requires Inv(c, s) && Refines(c, s, a, heard) && i < |s.tasks| && s.tasks[i].Dispatching?
    ensures Enabled(c, a, CrashAtOnce(i, heard[i]))
    ensures Refines(c, DropTask(s, i), Apply(c, a, CrashAtOnce(i, heard[i])), heard)
  {
    var id := s.tasks[i].id;
    assert Linked(c, s, a, heard, i);
    CrashRuns(c, a, i, id, heard[i], s.notes[id]);
    var a' := SetTask(Lose(a.(notes := a.notes[id := s.notes[id]]), id, PointOf(s.tasks[i])), i, Idle);
    assert s.notes[id := s.notes[id]] == s.notes;
    Rejoin(c, s, a, heard, i, s.notes[id], DropTask(s, i), a');
  }
}
