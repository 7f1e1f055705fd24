/** Ingestion and delivery together: a creator's insert of a free channel key is the engine's creation of the
    row. What is delivered to the service is settled at the providers. */
module Whole {
  import opened Model
  import opened ChannelKeys
  import opened Engine
  import opened Exclusivity
  import opened Accounting
  import opened Sends
  import opened Safety
  import Ingest

  datatype System = System(intake: Ingest.Intake, engine: State)

  /** Intake: a step of ingestion that writes no row. Insert: creator i commits its next channel as row id.
      Deliver: anything else the engine does. */
  datatype SystemEvent =
    | Intake(m: Ingest.Move)
    | Insert(i: nat, a: Action)
    | Deliver(a: Action)

  /** The key creator i is about to insert. */
  function NextKey(s: Ingest.Intake, i: nat): string
    requires Ingest.Can(s, Ingest.Insert(i))
  {
    ChannelKey(s.creators[i].value.base, s.creators[i].value.todo[0])
  }

  predicate CanHappen(c: Config, s: System, e: SystemEvent) {
    match e
    case Intake(m) => Ingest.Can(s.intake, m) && (m.Insert? ==> NextKey(s.intake, m.i) in s.intake.keys)
    case Insert(i, a) =>
      && Ingest.Can(s.intake, Ingest.Insert(i)) && NextKey(s.intake, i) !in s.intake.keys
      && a.Create? && Enabled(c, s.engine, a) && ChannelKey(a.base, a.channel) == NextKey(s.intake, i)
    case Deliver(a) => Enabled(c, s.engine, a) && Fine(a) && !a.Create?
  }

  function Happen(c: Config, m: Ingest.ChannelMap, s: System, e: SystemEvent): System
    requires CanHappen(c, s, e)
  {
    match e
    case Intake(move) => s.(intake := Ingest.Do(m, s.intake, move))
    case Insert(i, a) => System(Ingest.Do(m, s.intake, Ingest.Insert(i)), Apply(c, s.engine, a))
    case Deliver(a) => s.(engine := Apply(c, s.engine, a))
  }

  predicate Possible(c: Config, m: Ingest.ChannelMap, s: System, es: seq<SystemEvent>)
    decreases |es|
  {
    es == [] || (CanHappen(c, s, es[0]) && Possible(c, m, Happen(c, m, s, es[0]), es[1..]))
  }

  function HappenAll(c: Config, m: Ingest.ChannelMap, s: System, es: seq<SystemEvent>): System
    requires Possible(c, m, s, es)
    decreases |es|
  {
    if es == [] then s else HappenAll(c, m, Happen(c, m, s, es[0]), es[1..])
  }

  function Begin(slots: nat, tasks: nat): System {
    System(Ingest.Start(slots), Init(tasks))
  }

  // ---------------------------------------------------------------------------------------------
  // Each half runs as its own model says

  function IntakePart(e: SystemEvent): seq<Ingest.Move> {
    match e
    case Intake(m) => [m]
    case Insert(i, _) => [Ingest.Insert(i)]
    case Deliver(_) => []
  }

  function EnginePart(e: SystemEvent): seq<Action> {
    match e
    case Intake(_) => []
    case Insert(_, a) => [a]
    case Deliver(a) => [a]
  }

  function IntakeParts(es: seq<SystemEvent>): seq<Ingest.Move> {
    if es == [] then [] else IntakePart(es[0]) + IntakeParts(es[1..])
  }

  function EngineParts(es: seq<SystemEvent>): seq<Action> {
    if es == [] then [] else EnginePart(es[0]) + EngineParts(es[1..])
  }

  lemma {:induction false} IntakeRuns(c: Config, m: Ingest.ChannelMap, s: System, es: seq<SystemEvent>)
    requires Possible(c, m, s, es)
    ensures Ingest.CanAll(m, s.intake, IntakeParts(es))
    ensures Ingest.DoAll(m, s.intake, IntakeParts(es)) == HappenAll(c, m, s, es).intake
    decreases |es|
  {
    if es != [] {
      var first, rest := IntakePart(es[0]), IntakeParts(es[1..]);
      IntakeRuns(c, m, Happen(c, m, s, es[0]), es[1..]);
      if first == [] {
        assert first + rest == rest;
      } else {
        assert (first + rest)[0] == first[0] && (first + rest)[1..] == rest;
      }
    }
  }

  lemma {:induction false} EngineRuns(c: Config, m: Ingest.ChannelMap, s: System, es: seq<SystemEvent>)
    requires Possible(c, m, s, es)
    ensures Legal(c, s.engine, EngineParts(es)) && FineRun(EngineParts(es))
    ensures Exec(c, s.engine, EngineParts(es)) == HappenAll(c, m, s, es).engine
    decreases |es|
  {
    if es != [] {
      EngineRuns(c, m, Happen(c, m, s, es[0]), es[1..]);
      EngineFirst(c, m, s, es[0], EngineParts(es[1..]));
    }
  }

  lemma EngineFirst(c: Config, m: Ingest.ChannelMap, s: System, e: SystemEvent, rest: seq<Action>)
    requires CanHappen(c, s, e) && Legal(c, Happen(c, m, s, e).engine, rest) && FineRun(rest)
    ensures Legal(c, s.engine, EnginePart(e) + rest) && FineRun(EnginePart(e) + rest)
    ensures Exec(c, s.engine, EnginePart(e) + rest) == Exec(c, Happen(c, m, s, e).engine, rest)
  {
    var first := EnginePart(e);
    if first == [] {
      assert first + rest == rest;
    } else {
      assert (first + rest)[0] == first[0] && (first + rest)[1..] == rest;
    }
  }

  // ---------------------------------------------------------------------------------------------
  // The column of keys is the rows' keys

  ghost predicate Keyed(notes: map<Id, Note>, key: string) {
    exists id :: id in notes && notes[id].row.key == key
  }

  ghost predicate Joined(s: System) {
    Tied(s.engine) && forall key :: key in s.intake.keys <==> Keyed(s.engine.notes, key)
  }

  lemma DeliveryKeepsRows(c: Config, s: State, a: Action)
    requires Tied(s) && Enabled(c, s, a) && Fine(a) && !a.Create?
    ensures Apply(c, s, a).notes.Keys == s.notes.Keys && Grows(s.notes, Apply(c, s, a).notes)
  {
    if a.Work? {
      var t := s.tasks[a.i];
      assert TaskTied(s.notes, t);
      StepKeepsTied(c, t.id, t.phase, s.notes[t.id], a.x);
    } else {
      OthersKeepRows(c, s, a);
    }
  }

  lemma OthersKeepRows(c: Config, s: State, a: Action)
    requires Enabled(c, s, a) && Fine(a) && !a.Create? && !a.Work?
    ensures Apply(c, s, a).notes.Keys == s.notes.Keys && Grows(s.notes, Apply(c, s, a).notes)
  {
    if Plain(a) {
      PlainGrows(c, s, a);
      OneTaskChanges(c, s, a);
    }
  }

  lemma KeysStay(a: map<Id, Note>, b: map<Id, Note>, key: string)
    requires b.Keys == a.Keys && Grows(a, b)
    ensures Keyed(b, key) <==> Keyed(a, key)
  {
    if Keyed(a, key) {
      var id :| id in a && a[id].row.key == key;
      assert id in b && b[id].row.key == key;
    }
    if Keyed(b, key) {
      var id :| id in b && b[id].row.key == key;
      assert id in a && a[id].row.key == key;
    }
  }

  lemma InsertJoins(c: Config, m: Ingest.ChannelMap, s: System, e: SystemEvent)
    requires Joined(s) && CanHappen(c, s, e) && e.Insert?
    ensures Joined(Happen(c, m, s, e))
  {
    var s' := Happen(c, m, s, e);
    var row := NewRow(e.a.base, e.a.event, e.a.channel, e.a.recipient, e.a.priority);
    ActionKeepsTied(c, s.engine, e.a);
    assert s'.engine.notes == s.engine.notes[e.a.id := Note(row, NO_HISTORY)];
    assert s'.intake.keys == s.intake.keys + [row.key];
    forall key ensures key in s'.intake.keys <==> Keyed(s'.engine.notes, key) {
      CreatedKey(s.engine.notes, e.a.id, Note(row, NO_HISTORY), key);
    }
  }

  lemma CreatedKey(notes: map<Id, Note>, id: Id, n: Note, key: string)
    requires id !in notes
    ensures Keyed(notes[id := n], key) <==> Keyed(notes, key) || key == n.row.key
  {
    var after := notes[id := n];
    if Keyed(notes, key) {
      var j :| j in notes && notes[j].row.key == key;
      assert j in after && after[j].row.key == key;
    }
    if key == n.row.key { assert id in after && after[id].row.key == key; }
  }

  lemma {:induction false} RunJoins(c: Config, m: Ingest.ChannelMap, s: System, es: seq<SystemEvent>)
    requires Joined(s) && Possible(c, m, s, es)
    ensures Joined(HappenAll(c, m, s, es))
    decreases |es|
  {
    if es != [] {
      var s' := Happen(c, m, s, es[0]);
      match es[0] {
        case Intake(_) => assert s'.intake.keys == s.intake.keys;
        case Insert(_, _) => InsertJoins(c, m, s, es[0]);
        case Deliver(a) =>
          ActionKeepsTied(c, s.engine, a);
          DeliveryKeepsRows(c, s.engine, a);
          forall key ensures key in s'.intake.keys <==> Keyed(s'.engine.notes, key) {
            KeysStay(s.engine.notes, s'.engine.notes, key);
          }
      }
      RunJoins(c, m, s', es[1..]);
    }
  }

  // ---------------------------------------------------------------------------------------------
  // End to end

  /** SENT with exactly one accepted send, or FAILED with none. */
  predicate Settled(n: Note) {
    || (n.row.status == Sent && Deliveries(n) == 1)
    || (n.row.status == Failed && Deliveries(n) == 0)
  }

  lemma RowIsSettled(c: Config, tasks: nat, run: seq<Action>, id: Id)
    requires Disciplining(c, tasks, run)
    requires var s := Exec(c, Init(tasks), run); Quiescent(s) && s.dropped == multiset{} && id in s.notes
    ensures Settled(Exec(c, Init(tasks), run).notes[id])
  {
    RestMeansSettled(c, tasks, run, id);
    SentAtMostOnce(c, tasks, run, id);
  }

  lemma EngineIsSettled(c: Config, tasks: nat, run: seq<Action>)
    requires Disciplining(c, tasks, run)
    requires var s := Exec(c, Init(tasks), run); Quiescent(s) && s.dropped == multiset{}
    ensures var notes := Exec(c, Init(tasks), run).notes;
            KeysUnique(notes) && forall id :: id in notes ==> Settled(notes[id])
  {
    InitIsGood(c, tasks);
    RunKeeps(c, Init(tasks), run);
    forall id | id in Exec(c, Init(tasks), run).notes ensures Settled(Exec(c, Init(tasks), run).notes[id]) {
      RowIsSettled(c, tasks, run, id);
    }
  }

  /** The rows of the service are the ideal ones. */
  lemma RowsAreIdeal(
    c: Config, m: Ingest.ChannelMap, eventOf: string -> EventType, slots: nat, tasks: nat, es: seq<SystemEvent>,
    base: string, ch: Channel)
    requires Possible(c, m, Begin(slots, tasks), es)
    requires Ingest.Consistent(eventOf, IntakeParts(es))
    requires forall k :: 0 <= k < |IntakeParts(es)| ==> !IntakeParts(es)[k].Abort?
    requires forall i :: !Ingest.Busy(HappenAll(c, m, Begin(slots, tasks), es).intake, i)
    ensures var s := HappenAll(c, m, Begin(slots, tasks), es);
            Keyed(s.engine.notes, ChannelKey(base, ch)) <==>
            base in s.intake.delivered && ch in Ingest.Wanted(m, eventOf, base)
  {
    IntakeRuns(c, m, Begin(slots, tasks), es);
    RunJoins(c, m, Begin(slots, tasks), es);
    Ingest.CompleteWithoutAborts(m, eventOf, slots, IntakeParts(es), base, ch);
  }

  /** For any run of the whole service in which no creator aborts, the engine stays disciplined and every
      producer key always carries the same event: once everything is at rest and no token was dropped, a pair
      of producer key and channel has a row exactly if the key was delivered and its event maps to the
      channel; it has one row only; and that row is settled. */
  lemma EveryDeliveryIsSettled(
    c: Config, m: Ingest.ChannelMap, eventOf: string -> EventType, slots: nat, tasks: nat, es: seq<SystemEvent>,
    base: string, ch: Channel)
    requires Possible(c, m, Begin(slots, tasks), es)
    requires Ingest.Consistent(eventOf, IntakeParts(es))
    requires forall k :: 0 <= k < |IntakeParts(es)| ==> !IntakeParts(es)[k].Abort?
    requires Legal(c, Init(tasks), EngineParts(es)) && DisciplinedRun(c, Init(tasks), EngineParts(es))
    requires var s := HappenAll(c, m, Begin(slots, tasks), es);
             && (forall i :: !Ingest.Busy(s.intake, i)) && Quiescent(s.engine) && s.engine.dropped == multiset{}
    ensures var s := HappenAll(c, m, Begin(slots, tasks), es);
            var notes, key := s.engine.notes, ChannelKey(base, ch);
            && (Keyed(notes, key) <==> base in s.intake.delivered && ch in Ingest.Wanted(m, eventOf, base))
            && (forall i, j :: i in notes && j in notes && notes[i].row.key == key == notes[j].row.key ==> i == j)
            && (forall id :: id in notes ==> Settled(notes[id]))
  {
    EngineRuns(c, m, Begin(slots, tasks), es);
    RowsAreIdeal(c, m, eventOf, slots, tasks, es, base, ch);
    EngineIsSettled(c, tasks, EngineParts(es));
  }
}
