/** Fault isolation: in the atomic system a row is a function of what happened to that row alone. */
module Isolation {
  import opened Model
  import opened Dispatch
  import opened Engine
  import opened Accounting

  /** What can happen to one row: it is created, a dispatch of it gets these answers (and ends there or
      dies there), or a manual retry that had read this retry count commits. */
  datatype RowEvent = Born(row: Row) | Answered(xs: seq<Input>) | ByHand(count: nat)

  predicate Dispatches(t: Task, id: Id) {
    t.Dispatching? && t.id == id
  }

  /** The events of one row within one action. */
  function EventsOf(s: State, a: Action, id: Id): seq<RowEvent> {
    if a.Create? && a.id == id then [Born(NewRow(a.base, a.event, a.channel, a.recipient, a.priority))]
    else if (a.DispatchAtOnce? || a.CrashAtOnce?) && a.i < |s.tasks| && Dispatches(s.tasks[a.i], id) then
      [Answered(a.xs)]
    else if a.ManualRetry? && a.id == id && a.i < |s.tasks| && s.tasks[a.i].Asking? then [ByHand(s.tasks[a.i].count)]
    else []
  }

  function Projection(c: Config, s: State, run: seq<Action>, id: Id): seq<RowEvent>
    requires Legal(c, s, run)
    decreases |run|
  {
    if run == [] then []
    else EventsOf(s, run[0], id) + Projection(c, Apply(c, s, run[0]), run[1..], id)
  }

  /** The row alone, without queues, workers or other rows. */
  function ReplayOne(c: Config, id: Id, n: Option<Note>, e: RowEvent): Option<Note> {
    match e
    case Born(row) => Some(Note(row, NO_HISTORY))
    case Answered(xs) => if n.Some? then Some(Run(c, id, Fetched, n.value, xs).0) else None
    case ByHand(count) => if n.Some? then Some(RetriedByHand(n.value, count)) else None
  }

  function Replay(c: Config, id: Id, n: Option<Note>, es: seq<RowEvent>): Option<Note>
    decreases |es|
  {
    if es == [] then n else Replay(c, id, ReplayOne(c, id, n, es[0]), es[1..])
  }

  function Look(s: State, id: Id): Option<Note> {
    if id in s.notes then Some(s.notes[id]) else None
  }

  lemma DispatchIsReplayed(c: Config, s: State, i: nat, xs: seq<Input>, id: Id)
    requires i < |s.tasks| && s.tasks[i].Dispatching? && s.tasks[i].id in s.notes
    ensures Look(RunAtOnce(c, s, i, xs), id) ==
            if s.tasks[i].id == id then ReplayOne(c, id, Look(s, id), Answered(xs)) else Look(s, id)
  {
    var (n, turn) := Run(c, s.tasks[i].id, Fetched, s.notes[s.tasks[i].id], xs);
    assert RunAtOnce(c, s, i, xs).notes == s.notes[s.tasks[i].id := n];
  }

  lemma WritesAreReplayed(c: Config, s: State, a: Action, id: Id)
    requires Enabled(c, s, a) && (a.Create? || a.ManualRetry?)
    ensures var es := EventsOf(s, a, id);
            Look(Apply(c, s, a), id) == if es == [] then Look(s, id) else ReplayOne(c, id, Look(s, id), es[0])
  {}

  lemma ActionIsReplayed(c: Config, s: State, a: Action, id: Id)
    requires Enabled(c, s, a) && Atomic(a)
    ensures var es := EventsOf(s, a, id);
            Look(Apply(c, s, a), id) == if es == [] then Look(s, id) else ReplayOne(c, id, Look(s, id), es[0])
  {
    if a.DispatchAtOnce? || a.CrashAtOnce? {
      DispatchIsReplayed(c, s, a.i, a.xs, id);
    } else if a.Create? || a.ManualRetry? {
      WritesAreReplayed(c, s, a, id);
    } else {
      OthersLeaveRows(c, s, a);
    }
  }

  /** After any atomic run, a row is what replaying its own events makes of it. */
  lemma {:induction false} RowIsItsReplay(c: Config, s: State, run: seq<Action>, id: Id)
    requires Legal(c, s, run) && AtomicRun(run)
    ensures Look(Exec(c, s, run), id) == Replay(c, id, Look(s, id), Projection(c, s, run, id))
    decreases |run|
  {
    if run != [] {
      assert Atomic(run[0]);
      ActionIsReplayed(c, s, run[0], id);
      var s1 := Apply(c, s, run[0]);
      RowIsItsReplay(c, s1, run[1..], id);
      var es := EventsOf(s, run[0], id);
      var rest := Projection(c, s1, run[1..], id);
      assert es != [] ==> (es + rest)[0] == es[0] && (es + rest)[1..] == rest;
      assert es == [] ==> es + rest == rest;
    }
  }

  /** Whatever providers, workers, other rows and queues do differently in two runs, a row with the same
      events ends the same: an outage on one channel cannot change a row on another. */
  lemma OutagesDoNotSpread(c: Config, s1: State, run1: seq<Action>, s2: State, run2: seq<Action>, id: Id)
    requires Legal(c, s1, run1) && AtomicRun(run1) && Legal(c, s2, run2) && AtomicRun(run2)
    requires Look(s1, id) == Look(s2, id)
    requires Projection(c, s1, run1, id) == Projection(c, s2, run2, id)
    ensures Look(Exec(c, s1, run1), id) == Look(Exec(c, s2, run2), id)
  {
    RowIsItsReplay(c, s1, run1, id);
    RowIsItsReplay(c, s2, run2, id);
  }
}
