/** Reduction: under the two rules of Exclusivity, every interleaved run can be matched by an atomic run
    in which each dispatch is one action with the same provider answers. Whenever no dispatch is in
    progress, the two are in the same state. */
module Reduction {
  import opened Model
  import opened Dispatch
  import opened Engine
  import opened Exclusivity
  import opened Accounting
  import opened Matching
  import opened Sharing

  // ---------------------------------------------------------------------------------------------
  // The theorem

  /** The atomic action, if any, that answers an action of the interleaved engine. */
  function Answer(c: Config, s: State, heard: seq<seq<Input>>, act: Action): seq<Action>
    requires Enabled(c, s, act) && |heard| == |s.tasks|
  {
    if act.Work? then
      var t := s.tasks[act.i];
      if t.id in s.notes && Step(c, t.id, t.phase, s.notes[t.id], act.x).1.Done?
      then [DispatchAtOnce(act.i, heard[act.i] + [act.x])] else []
    else if act.Drop? && s.tasks[act.i].Dispatching? then [CrashAtOnce(act.i, heard[act.i])]
    else [act]
  }

  /** One action of the interleaved engine is answered by at most one of the atomic system. */
  lemma Simulates(c: Config, s: State, a: State, heard: seq<seq<Input>>, act: Action) returns (heard': seq<seq<Input>>)
    requires Inv(c, s) && Refines(c, s, a, heard) && Enabled(c, s, act) && Fine(act) && Disciplined(s, act)
    ensures var bs := Answer(c, s, heard, act);
            && Legal(c, a, bs) && AtomicRun(bs) && DisciplinedRun(c, a, bs)
            && Refines(c, Apply(c, s, act), Exec(c, a, bs), heard')
  {
    var bs := Answer(c, s, heard, act);
    heard' := heard;
    if act.Work? {
      assert TaskGood(c, s.notes, s.tasks[act.i]);
      var t := s.tasks[act.i];
      if Step(c, t.id, t.phase, s.notes[t.id], act.x).1.Done? {
        LastStep(c, s, a, heard, act.i, act.x);
        OneAction(c, a, bs[0]);
      } else {
        InnerStep(c, s, a, heard, act.i, act.x);
        heard' := heard[act.i := heard[act.i] + [act.x]];
      }
    } else if act.Drop? && s.tasks[act.i].Dispatching? {
      DeathInside(c, s, a, heard, act.i);
      OneAction(c, a, bs[0]);
    } else {
      SharedStep(c, s, a, heard, act);
      SharedIsDisciplined(c, s, a, heard, act);
      OneAction(c, a, act);
      heard' := HeardAfter(act, heard);
    }
  }

  lemma SharedIsDisciplined(c: Config, s: State, a: State, heard: seq<seq<Input>>, act: Action)
    requires Refines(c, s, a, heard) && Enabled(c, s, act) && Shared(s, act) && Disciplined(s, act)
    ensures Disciplined(a, act)
  {
    if act.Ask? || act.ManualRetry? {
      assert Linked(c, s, a, heard, act.i);
      SameTokens(c, s, a, heard, act.id);
      UntokenedMatches(c, s, a, heard, act.id);
    }
  }

  lemma OneAction(c: Config, a: State, act: Action)
    requires Enabled(c, a, act) && Atomic(act) && Disciplined(a, act)
    ensures Legal(c, a, [act]) && AtomicRun([act]) && DisciplinedRun(c, a, [act])
    ensures Exec(c, a, [act]) == Apply(c, a, act)
  {
    assert [act][1..] == [];
  }

  lemma {:induction false} Append(c: Config, a: State, bs: seq<Action>, cs: seq<Action>)
    requires Legal(c, a, bs) && Legal(c, Exec(c, a, bs), cs)
    ensures Legal(c, a, bs + cs) && Exec(c, a, bs + cs) == Exec(c, Exec(c, a, bs), cs)
    decreases |bs|
  {
    if bs == [] {
      assert bs + cs == cs;
    } else {
      assert (bs + cs)[0] == bs[0] && (bs + cs)[1..] == bs[1..] + cs;
      Append(c, Apply(c, a, bs[0]), bs[1..], cs);
    }
  }

  lemma {:induction false} AppendDisciplined(c: Config, a: State, bs: seq<Action>, cs: seq<Action>)
    requires Legal(c, a, bs) && Legal(c, Exec(c, a, bs), cs) && Legal(c, a, bs + cs)
    requires DisciplinedRun(c, a, bs) && DisciplinedRun(c, Exec(c, a, bs), cs)
    ensures DisciplinedRun(c, a, bs + cs)
    decreases |bs|
  {
    if bs == [] {
      assert bs + cs == cs;
    } else {
      assert (bs + cs)[0] == bs[0] && (bs + cs)[1..] == bs[1..] + cs;
      var a1, rest := Apply(c, a, bs[0]), bs[1..];
      assert Exec(c, a, bs) == Exec(c, a1, rest) && DisciplinedRun(c, a1, rest) && Legal(c, a1, rest + cs);
      AppendDisciplined(c, a1, rest, cs);
    }
  }

  lemma {:induction false} RunSimulated(c: Config, s: State, a: State, heard: seq<seq<Input>>, run: seq<Action>)
    returns (bs: seq<Action>, heard': seq<seq<Input>>)
    requires Inv(c, s) && Refines(c, s, a, heard)
    requires Legal(c, s, run) && FineRun(run) && DisciplinedRun(c, s, run)
    ensures Legal(c, a, bs) && AtomicRun(bs) && DisciplinedRun(c, a, bs)
    ensures Refines(c, Exec(c, s, run), Exec(c, a, bs), heard')
    decreases |run|
  {
    if run == [] {
      bs, heard' := [], heard;
    } else {
      assert Fine(run[0]);
      var first := Answer(c, s, heard, run[0]);
      var heard1 := Simulates(c, s, a, heard, run[0]);
      ActionKeeps(c, s, run[0]);
      var rest;
      rest, heard' := RunSimulated(c, Apply(c, s, run[0]), Exec(c, a, first), heard1, run[1..]);
      Append(c, a, first, rest);
      AppendDisciplined(c, a, first, rest);
      bs := first + rest;
    }
  }

  predicate NoDispatchInProgress(s: State) {
    forall i :: 0 <= i < |s.tasks| ==> !s.tasks[i].Dispatching?
  }

  /** Every disciplined interleaved run has an atomic, equally disciplined run that ends in the very same
      state whenever no dispatch is in progress: the same rows, queues and dead letters, and, since the
      histories are part of the state, the same provider answers and the same delays for every row. */
  lemma InterleavingIsAtomic(c: Config, tasks: nat, run: seq<Action>) returns (bs: seq<Action>)
    requires Legal(c, Init(tasks), run) && FineRun(run) && DisciplinedRun(c, Init(tasks), run)
    ensures Legal(c, Init(tasks), bs) && AtomicRun(bs) && DisciplinedRun(c, Init(tasks), bs)
    ensures NoDispatchInProgress(Exec(c, Init(tasks), run)) ==> Exec(c, Init(tasks), bs) == Exec(c, Init(tasks), run)
  {
    InitIsGood(c, tasks);
    var s := Init(tasks);
    var heard := seq(tasks, i => []);
    assert Refines(c, s, s, heard) by {
      assert forall i :: 0 <= i < |s.tasks| ==> Linked(c, s, s, heard, i);
    }
    var heard';
    bs, heard' := RunSimulated(c, s, s, heard, run);
    var s', a' := Exec(c, s, run), Exec(c, s, bs);
    if NoDispatchInProgress(s') {
      assert a'.tasks == s'.tasks by {
        forall i | 0 <= i < |s'.tasks| ensures a'.tasks[i] == s'.tasks[i] { assert Linked(c, s', a', heard', i); }
      }
      assert a'.notes == s'.notes by {
        forall id | id in s'.notes ensures a'.notes[id] == s'.notes[id] { assert NoteMatches(s', a', id); }
      }
    }
  }

  // ---------------------------------------------------------------------------------------------
  // The converse: an atomic dispatch is an uninterrupted stretch of the interleaved engine

  predicate WorkRun(run: seq<Action>) {
    forall k :: 0 <= k < |run| ==> run[k].Work?
  }

  lemma {:induction false} WorkIsDisciplined(c: Config, s: State, run: seq<Action>)
    requires Legal(c, s, run) && WorkRun(run)
    ensures FineRun(run) && DisciplinedRun(c, s, run)
    decreases |run|
  {
    if run != [] {
      assert run[0].Work?;
      WorkIsDisciplined(c, Apply(c, s, run[0]), run[1..]);
    }
  }

  lemma WorkThen(c: Config, s: State, i: nat, x: Input, rest: seq<Action>)
    requires i < |s.tasks| && s.tasks[i].Dispatching? && Legal(c, WorkOn(c, s, i, x), rest) && WorkRun(rest)
    ensures Legal(c, s, [Work(i, x)] + rest) && WorkRun([Work(i, x)] + rest)
    ensures Exec(c, s, [Work(i, x)] + rest) == Exec(c, WorkOn(c, s, i, x), rest)
  {
    assert ([Work(i, x)] + rest)[1..] == rest;
  }

  lemma SettleTwice(s: State, i: nat, id: Id, n: Note, phase: Phase, m: Note, turn: Turn)
    requires i < |s.tasks|
    ensures Settle(Settle(s, i, id, n, More(phase)), i, id, m, turn) == Settle(s, i, id, m, turn)
  {
    MoreOnlyAdvances(s, i, id, n, phase);
    assert s.tasks[i := Dispatching(id, phase)][i := AfterTurn(id, turn)] == s.tasks[i := AfterTurn(id, turn)];
    assert s.notes[id := n][id := m] == s.notes[id := m];
  }

  /** Working on task i without interruption, answer by answer, gives what running the dispatch on its
      row gives. */
  lemma {:induction false} Uninterrupted(c: Config, s: State, i: nat, xs: seq<Input>) returns (run: seq<Action>)
    requires i < |s.tasks| && s.tasks[i].Dispatching? && s.tasks[i].id in s.notes
    ensures Legal(c, s, run) && WorkRun(run)
    ensures var t := s.tasks[i];
            var (n, turn) := Run(c, t.id, t.phase, s.notes[t.id], xs);
            Exec(c, s, run) == Settle(s, i, t.id, n, turn)
    decreases |xs|
  {
    var t := s.tasks[i];
    if xs == [] {
      run := [];
      MoreOnlyAdvances(s, i, t.id, s.notes[t.id], t.phase);
      assert s.tasks[i := t] == s.tasks && s.notes[t.id := s.notes[t.id]] == s.notes;
    } else {
      var (n, turn) := Step(c, t.id, t.phase, s.notes[t.id], xs[0]);
      var s1 := Settle(s, i, t.id, n, turn);
      var rest := [];
      if turn.More? {
        rest := Uninterrupted(c, s1, i, xs[1..]);
        var (m, last) := Run(c, t.id, turn.phase, n, xs[1..]);
        SettleTwice(s, i, t.id, n, turn.phase, m, last);
      }
      WorkThen(c, s, i, xs[0], rest);
      run := [Work(i, xs[0])] + rest;
    }
  }

  /** Every atomic dispatch is a run of the interleaved engine. */
  lemma AtomicDispatchIsARun(c: Config, s: State, i: nat, xs: seq<Input>) returns (run: seq<Action>)
    requires Enabled(c, s, DispatchAtOnce(i, xs))
    ensures Legal(c, s, run) && FineRun(run) && DisciplinedRun(c, s, run)
    ensures Exec(c, s, run) == Apply(c, s, DispatchAtOnce(i, xs))
  {
    run := Uninterrupted(c, s, i, xs);
    WorkIsDisciplined(c, s, run);
  }

  lemma DropAfterSteps(s: State, i: nat, id: Id, n: Note, phase: Phase)
    requires i < |s.tasks|
    ensures var t := Settle(s, i, id, n, More(phase));
            && t.tasks[i] == Dispatching(id, phase)
            && DropTask(t, i) ==
               SetTask(Lose(s.(notes := s.notes[id := n]), id, PointOf(Dispatching(id, phase))), i, Idle)
  {
    MoreOnlyAdvances(s, i, id, n, phase);
    assert s.tasks[i := Dispatching(id, phase)][i := Idle] == s.tasks[i := Idle];
  }

  lemma DropEnds(c: Config, s: State, run: seq<Action>, i: nat)
    requires Legal(c, s, run) && WorkRun(run) && i < |Exec(c, s, run).tasks| && !Exec(c, s, run).tasks[i].Idle?
    ensures Legal(c, s, run + [Drop(i)]) && FineRun(run + [Drop(i)]) && DisciplinedRun(c, s, run + [Drop(i)])
    ensures Exec(c, s, run + [Drop(i)]) == DropTask(Exec(c, s, run), i)
  {
    WorkIsDisciplined(c, s, run);
    assert [Drop(i)][1..] == [];
    Append(c, s, run, [Drop(i)]);
    AppendDisciplined(c, s, run, [Drop(i)]);
  }

  /** A dispatch cut short is one too, with the worker's death at the end. */
  lemma AtomicCrashIsARun(c: Config, s: State, i: nat, xs: seq<Input>) returns (run: seq<Action>)
    requires Enabled(c, s, CrashAtOnce(i, xs))
    ensures Legal(c, s, run) && FineRun(run) && DisciplinedRun(c, s, run)
    ensures Exec(c, s, run) == Apply(c, s, CrashAtOnce(i, xs))
  {
    var id := s.tasks[i].id;
    var (n, turn) := Run(c, id, Fetched, s.notes[id], xs);
    run := Uninterrupted(c, s, i, xs);
    DropAfterSteps(s, i, id, n, turn.phase);
    DropEnds(c, s, run, i);
    CrashRuns(c, s, i, id, xs, n);
    run := run + [Drop(i)];
  }

  /** The run of the interleaved engine for one atomic action. */
  lemma AtomicActionIsARun(c: Config, s: State, act: Action) returns (run: seq<Action>)
    requires Enabled(c, s, act) && Atomic(act)
    ensures Legal(c, s, run) && FineRun(run) && Exec(c, s, run) == Apply(c, s, act)
    ensures Disciplined(s, act) ==> DisciplinedRun(c, s, run)
  {
    if act.DispatchAtOnce? {
      run := AtomicDispatchIsARun(c, s, act.i, act.xs);
    } else if act.CrashAtOnce? {
      run := AtomicCrashIsARun(c, s, act.i, act.xs);
    } else {
      assert [act][1..] == [];
      run := [act];
    }
  }

  /** The converse of InterleavingIsAtomic: every run of the atomic system has an interleaved run to the same
      state, disciplined if it was. Between dispatches the two systems reach the same states. */
  lemma {:induction false} AtomicRunIsInterleaved(c: Config, s: State, bs: seq<Action>) returns (run: seq<Action>)
    requires Legal(c, s, bs) && AtomicRun(bs)
    ensures Legal(c, s, run) && FineRun(run) && Exec(c, s, run) == Exec(c, s, bs)
    ensures DisciplinedRun(c, s, bs) ==> DisciplinedRun(c, s, run)
    decreases |bs|
  {
    run := [];
    if bs != [] {
      assert Atomic(bs[0]);
      run := AtomicActionIsARun(c, s, bs[0]);
      var s1 := Apply(c, s, bs[0]);
      var rest := AtomicRunIsInterleaved(c, s1, bs[1..]);
      Append(c, s, run, rest);
      if DisciplinedRun(c, s, bs) { AppendDisciplined(c, s, run, rest); }
      run := run + rest;
    }
  }

  /** The retry count never loses an update: at every moment of a disciplined run, the snapshot a dispatch
      will add one to is the row itself. */
  lemma NoLostUpdate(c: Config, tasks: nat, run: seq<Action>, i: nat)
    requires Legal(c, Init(tasks), run) && FineRun(run) && DisciplinedRun(c, Init(tasks), run)
    requires i < |Exec(c, Init(tasks), run).tasks|
    requires var t := Exec(c, Init(tasks), run).tasks[i]; t.Dispatching? && t.phase.Deciding?
    ensures var s := Exec(c, Init(tasks), run);
            var t := s.tasks[i];
            && t.id in s.notes && t.phase.snap == s.notes[t.id].row
            && (forall x :: var m := Step(c, t.id, t.phase, s.notes[t.id], x).0;
                            m.row.status == Retrying ==> m.row.retryCount == s.notes[t.id].row.retryCount + 1)
  {
    InitIsGood(c, tasks);
    RunKeeps(c, Init(tasks), run);
    var s := Exec(c, Init(tasks), run);
    assert TaskGood(c, s.notes, s.tasks[i]);
  }
}
