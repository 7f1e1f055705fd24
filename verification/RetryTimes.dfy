/** The retry messages the engine publishes, put into the retry queue as RetryQueue keeps it. */
module RetryTimes {
  import opened Model
  import opened Backoff
  import opened Dispatch
  import opened Engine
  import opened Accounting
  import opened Exclusivity
  import RetryQueue

  function PublishedBy(s: State, s': State, a: Action): seq<Message> {
    if a.Work? && |s.retries| <= |s'.retries| then s'.retries[|s.retries|..] else []
  }

  /** The messages a run publishes, in order. */
  function Published(c: Config, s: State, run: seq<Action>): seq<Message>
    requires Legal(c, s, run)
    decreases |run|
  {
    if run == [] then []
    else
      var s' := Apply(c, s, run[0]);
      PublishedBy(s, s', run[0]) + Published(c, s', run[1..])
  }

  /** How many messages the broker releases along a run. */
  function Releases(run: seq<Action>): nat
    decreases |run|
  {
    if run == [] then 0 else (if run[0].Expire? then 1 else 0) + Releases(run[1..])
  }

  lemma WorkPublishes(c: Config, s: State, i: nat, x: Input)
    requires i < |s.tasks| && s.tasks[i].Dispatching?
    ensures s.retries <= WorkOn(c, s, i, x).retries
  {}

  /** An action publishes at the end of the retry queue, or releases at its front, or leaves it. */
  lemma OneActionPublishes(c: Config, s: State, a: Action)
    requires Enabled(c, s, a) && Fine(a)
    ensures a.Expire? ==> s.retries != []
    ensures var s' := Apply(c, s, a);
            s.retries + PublishedBy(s, s', a) == (if a.Expire? then [s.retries[0]] else []) + s'.retries
  {
    if a.Work? {
      WorkPublishes(c, s, a.i, a.x);
    } else if Plain(a) {
      OneTaskChanges(c, s, a);
    }
  }

  lemma Regroup(q: seq<Message>, added: seq<Message>, front: seq<Message>, q': seq<Message>, rest: seq<Message>)
    requires q + added == front + q'
    ensures q + (added + rest) == front + (q' + rest)
  {
    assert q + (added + rest) == (q + added) + rest;
  }

  lemma DropsFront(front: seq<Message>, q: seq<Message>, all: seq<Message>, k: nat, left: seq<Message>)
    requires all == front + q && k <= |q| && left == q[k..]
    ensures |front| + k <= |all| && left == all[|front| + k..]
  {}

  /** First in, first out: what is in the retry queue after a run is what was there and what the run published,
      in that order, less as many from the front as the broker released. */
  lemma {:induction false} RetryQueueIsFifo(c: Config, s: State, run: seq<Action>)
    requires Legal(c, s, run) && FineRun(run)
    ensures Releases(run) <= |s.retries + Published(c, s, run)|
    ensures Exec(c, s, run).retries == (s.retries + Published(c, s, run))[Releases(run)..]
    decreases |run|
  {
    if run != [] {
      assert Fine(run[0]);
      var s' := Apply(c, s, run[0]);
      RetryQueueIsFifo(c, s', run[1..]);
      OneActionPublishes(c, s, run[0]);
      var passed := s'.retries + Published(c, s', run[1..]);
      var front := if run[0].Expire? then [s.retries[0]] else [];
      Regroup(s.retries, PublishedBy(s, s', run[0]), front, s'.retries, Published(c, s', run[1..]));
      DropsFront(front, passed, s.retries + Published(c, s, run), Releases(run[1..]), Exec(c, s, run).retries);
      assert Releases(run) == |front| + Releases(run[1..]);
    }
  }

  ghost predicate SomeLevels(c: Config, delay: nat) {
    exists e: EventType :: AllowedDelay(PolicyFor(c, e), delay)
  }

  ghost predicate DelayOk(c: Config, t: Task) {
    t.Dispatching? && t.phase.Publishing? ==> SomeLevels(c, t.phase.delay)
  }

  ghost predicate DelaysOk(c: Config, tasks: seq<Task>) {
    forall i :: 0 <= i < |tasks| ==> DelayOk(c, tasks[i])
  }

  lemma StepDelays(c: Config, id: Id, phase: Phase, n: Note, x: Input)
    requires phase.Publishing? ==> SomeLevels(c, phase.delay)
    ensures var turn := Step(c, id, phase, n, x).1;
            && (turn.More? && turn.phase.Publishing? ==> SomeLevels(c, turn.phase.delay))
            && (turn.Done? && turn.effect.Emit? ==> SomeLevels(c, turn.effect.delay))
  {
    if phase.Deciding? {
      var p := PolicyFor(c, phase.snap.event);
      var level := phase.snap.retryCount + 1;
      if level <= p.maxRetries {
        DrawsFillTheWindow(p, level, RetryDelay(p, level, x.draw));
        assert AllowedDelay(p, RetryDelay(p, level, x.draw));
      }
    }
  }

  lemma WorkDelays(c: Config, s: State, i: nat, x: Input)
    requires DelaysOk(c, s.tasks) && i < |s.tasks| && s.tasks[i].Dispatching?
    ensures var s' := WorkOn(c, s, i, x);
            && DelaysOk(c, s'.tasks) && |s.retries| <= |s'.retries|
            && (forall k :: |s.retries| <= k < |s'.retries| ==> SomeLevels(c, s'.retries[k].delay))
  {
    var t := s.tasks[i];
    assert DelayOk(c, t);
    if t.id in s.notes { StepDelays(c, t.id, t.phase, s.notes[t.id], x); }
  }

  lemma PlainDelays(c: Config, s: State, a: Action)
    requires DelaysOk(c, s.tasks) && Enabled(c, s, a) && Fine(a) && !a.Work?
    ensures DelaysOk(c, Apply(c, s, a).tasks)
  {
    if !a.PopLost? && !a.Expire? {
      OnlyItsTask(c, s, a);
      TasksStayOk(c, s.tasks, a.i, TaskAfter(s, a));
    }
  }

  lemma TasksStayOk(c: Config, tasks: seq<Task>, i: nat, t: Task)
    requires i < |tasks| && DelayOk(c, t) && DelaysOk(c, tasks)
    ensures DelaysOk(c, tasks[i := t])
  {}

  /** Whatever the code does, every published delay is one that some event's policy allows. */
  lemma {:induction false} PublishedDelaysAreAllowed(c: Config, s: State, run: seq<Action>)
    requires DelaysOk(c, s.tasks) && Legal(c, s, run) && FineRun(run)
    ensures forall k :: 0 <= k < |Published(c, s, run)| ==> SomeLevels(c, Published(c, s, run)[k].delay)
    decreases |run|
  {
    if run != [] {
      assert Fine(run[0]);
      if run[0].Work? { WorkDelays(c, s, run[0].i, run[0].x); } else { PlainDelays(c, s, run[0]); }
      PublishedDelaysAreAllowed(c, Apply(c, s, run[0]), run[1..]);
    }
  }

  /** Under the shipped policies, no retry the engine publishes waits more than 120 seconds in the retry queue,
      whatever is ahead of it: for any run of the engine and any timing es of the queue that publishes the
      run's messages in the run's order. */
  lemma EngineRetriesWithinTwoMinutes(
    c: Config, tasks: nat, run: seq<Action>, now: nat, es: seq<RetryQueue.Event>, k: nat)
    requires Shipped(c) && Legal(c, Init(tasks), run) && FineRun(run)
    requires RetryQueue.CanAll(RetryQueue.Empty(now), es)
    requires var b := RetryQueue.NextAll(RetryQueue.Empty(now), es);
             && |b.messages| <= |Published(c, Init(tasks), run)| && k < |b.releases|
             && forall j :: 0 <= j < |b.messages| ==>
                  b.messages[j].id == Published(c, Init(tasks), run)[j].id &&
                  b.messages[j].delay == Published(c, Init(tasks), run)[j].delay
    ensures var b := RetryQueue.NextAll(RetryQueue.Empty(now), es);
            |b.releases| <= |b.messages| && b.releases[k] <= b.messages[k].published + 120
  {
    PublishedDelaysAreAllowed(c, Init(tasks), run);
    var b := RetryQueue.NextAll(RetryQueue.Empty(now), es);
    forall m | m in b.messages ensures exists e: EventType :: AllowedDelay(PolicyFor(c, e), m.delay) {
      var j :| 0 <= j < |b.messages| && b.messages[j] == m;
      assert SomeLevels(c, Published(c, Init(tasks), run)[j].delay);
    }
    RetryQueue.ShippedRetriesWithinTwoMinutes(c, now, es, k);
  }
}
