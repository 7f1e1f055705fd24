/** The dispatch service as the program writes it: statement by statement over the repository and the
    queues, here without interference. It does to the row what DispatchOnce says, which in turn is what
    the interleaved steps add up to. */
module DispatchServices {
  import opened Model
  import opened Backoff
  import opened Dispatch
  import opened Engine
  import opened Outcomes
  import opened Repository
  import opened Queues

  /** The database raises at one of its round trips, counted from 0: the read, the QUEUED commit (or, without
      a provider, the FAILED commit), the outcome commit. committed: the change was made all the same. */
  datatype Fault = Fault(at: nat, committed: bool)

  /** Which brokers answer during one dispatch, and whether the database does. */
  datatype Weather = Weather(rabbit: bool, dlq: bool, fault: Option<Fault>)

  /** What the fault, if any, does to one round trip. */
  function Hit(f: Option<Fault>, at: nat): Option<bool> {
    if f.Some? && f.value.at == at then Some(f.value.committed) else None
  }

  function Buried(e: Effect, up: bool): seq<DeadLetter> {
    if e.Bury? && up then [e.letter] else []
  }

  /** An outcome whose commit a failure hits: the row is as before or as intended, and an exception takes the
      place of the message or the letter. */
  function Struck(before: Row, intended: (Row, Effect), failure: Option<bool>): (Row, Effect) {
    if failure.None? || intended.1.Raise? then intended
    else (if failure.value then intended.0 else before, Raise)
  }

  function Attempted(c: Config, id: Id, queued: Row, x: Input): (Row, Effect) {
    if x.up then SendRow(c, id, queued, x) else RescheduleRow(c, id, queued, ProviderDown, x.draw)
  }

  /** What a dispatch makes of a row when the database may fail. */
  function Suffered(c: Config, id: Id, row: Row, x: Input, f: Option<Fault>): (Row, Effect) {
    var intended := DispatchRow(c, id, row, x);
    if Hit(f, 0).Some? then (row, Raise)
    else if row.channel !in c.providers then Struck(row, intended, Hit(f, 1))
    else if Hit(f, 1).Some? then (if Hit(f, 1).value then row.(status := Queued) else row, Raise)
    else Struck(row.(status := Queued), intended, Hit(f, 2))
  }

  /** Past the read: no provider, a QUEUED commit that fails, or what the attempt leads to. */
  lemma SufferedCases(c: Config, id: Id, row: Row, x: Input, f: Option<Fault>)
    requires Hit(f, 0).None?
    ensures row.channel !in c.providers ==>
              Suffered(c, id, row, x, f) ==
              (if Hit(f, 1) == Some(false) then row else row.(status := Failed, errorCode := Some(Unknown)),
               if Hit(f, 1).Some? then Raise else Nothing)
    ensures row.channel in c.providers ==>
              var queued := row.(status := Queued);
              Suffered(c, id, row, x, f) ==
              if Hit(f, 1).Some? then (if Hit(f, 1).value then queued else row, Raise)
              else Struck(queued, Attempted(c, id, queued, x), Hit(f, 2))
  {
    DispatchRowCases(c, id, row, x);
  }

  /** What a fault at each round trip does: the read changes nothing; a failing QUEUED commit leaves the row as
      it was or QUEUED; a failing outcome commit leaves it QUEUED or with its outcome, and nothing is published.
      Later there is no round trip left. Without a provider the second one is the outcome commit. */
  lemma FaultsTripByTrip(c: Config, id: Id, row: Row, x: Input, at: nat, committed: bool)
    ensures var done := Suffered(c, id, row, x, Some(Fault(at, committed)));
            var calm := Suffered(c, id, row, x, None);
            if at == 0 then done == (row, Raise)
            else if row.channel !in c.providers then
              done == if at > 1 then calm else (if committed then calm.0 else row, Raise)
            else if at == 1 then done == (if committed then row.(status := Queued) else row, Raise)
            else if at == 2 then done == (if committed then calm.0 else row.(status := Queued), Raise)
            else done == calm
  {
    DispatchRowCases(c, id, row, x);
  }

  /** The dispatch broke off between its QUEUED commit and its outcome commit. */
  predicate CutShort(c: Config, row: Row, x: Input, f: Option<Fault>) {
    && row.channel in c.providers && Hit(f, 0).None? && Hit(f, 1) != Some(false)
    && (|| Hit(f, 1) == Some(true)
        || Hit(f, 2) == Some(false)
        || (x.up && Classify(x.reply).Garbled?))
  }

  /** A dispatch leaves the row QUEUED exactly when it broke off in that stretch. */
  lemma LeftQueuedIff(c: Config, id: Id, row: Row, x: Input, f: Option<Fault>)
    requires row.status != Queued
    ensures Suffered(c, id, row, x, f).0.status == Queued <==> CutShort(c, row, x, f)
  {
    DispatchRowCases(c, id, row, x);
  }

  /** How a retryable failure with this code ends, by the table's entry for the row's event: was has become row,
      and the retry and dead-letter queues have grown to retries' and letters'. */
  ghost predicate RetriedOrBuried(c: Config, id: Id, was: Row, row: Row, code: ErrorCode, w: Weather,
      retries: seq<Message>, retries': seq<Message>, letters: seq<DeadLetter>, letters': seq<DeadLetter>)
  {
    var p := if was.event in c.table then c.table[was.event] else c.fallback;
    if was.retryCount + 1 <= p.maxRetries then
      && row == was.(status := Retrying, retryCount := was.retryCount + 1, errorCode := Some(code))
      && letters' == letters
      && exists delay ::
           && InWindow(p, was.retryCount + 1, delay)
           && retries' == if w.rabbit then retries + [Message(id, delay)] else retries
    else
      && row == was.(status := Failed, errorCode := Some(code)) && retries' == retries
      && letters' ==
         if w.dlq then letters + [DeadLetter(id, was.key, was.event, was.channel, was.recipient, code, was.retryCount)]
         else letters
  }

  lemma RescheduledIsWrittenOut(c: Config, id: Id, was: Row, code: ErrorCode, done: (Row, Effect), w: Weather,
      retries: seq<Message>, letters: seq<DeadLetter>)
    requires Rescheduled(c, id, was, code, done)
    ensures RetriedOrBuried(c, id, was, done.0, code, w,
              retries, retries + (if w.rabbit then Emitted(id, Done(done.1)) else []),
              letters, letters + Buried(done.1, w.dlq))
  {
    var p := if was.event in c.table then c.table[was.event] else c.fallback;
    assert retries + [] == retries && letters + [] == letters;
    if was.retryCount + 1 <= p.maxRetries {
      assert InWindow(p, was.retryCount + 1, done.1.delay) && Emitted(id, Done(done.1)) == [Message(id, done.1.delay)];
    }
  }

  /** What a reply leads to, in the provider's numbers. One that reports success is stored with its external id;
      one with a number that is no code's raises; 4 and 5 fail for good, without a letter; anything else is a
      retryable failure. The code stored is the one of the number refused with, UNKNOWN for none and for 0. */
  ghost predicate Answered(c: Config, id: Id, was: Row, x: Input, w: Weather, row: Row, raised: bool,
      retries: seq<Message>, retries': seq<Message>, letters: seq<DeadLetter>, letters': seq<DeadLetter>)
  {
    var number := if x.reply.errorCode.Some? then x.reply.errorCode.value else 0;
    var silent := retries' == retries && letters' == letters;
    if x.reply.success then
      row == was.(status := Sent, externalId := x.reply.externalId, stime := Some(x.now)) && silent && !raised
    else if number < 0 || number > 6 then
      row == was && silent && raised
    else
      && !raised && row.errorCode.Some?
      && NumberOf(row.errorCode.value) == (if number == 0 then 6 else number)
      && (row.errorCode.value == Timeout <==> number == 1) && (row.errorCode.value == InvalidToken <==> number == 5)
      && (if number == 4 || number == 5 then row == was.(status := Failed, errorCode := row.errorCode) && silent
          else RetriedOrBuried(c, id, was, row, row.errorCode.value, w, retries, retries', letters, letters'))
  }

  /** A dispatch without a fault. Without a provider the row fails for good; a provider that is down is a
      retryable failure; otherwise the reply decides. */
  ghost predicate Undisturbed(c: Config, id: Id, was: Row, x: Input, w: Weather, row: Row, raised: bool,
      retries: seq<Message>, retries': seq<Message>, letters: seq<DeadLetter>, letters': seq<DeadLetter>)
  {
    if was.channel !in c.providers then
      && row == was.(status := Failed, errorCode := Some(Unknown)) && !raised
      && retries' == retries && letters' == letters
    else if x.up then
      Answered(c, id, was.(status := Queued), x, w, row, raised, retries, retries', letters, letters')
    else
      !raised && RetriedOrBuried(c, id, was, row, ProviderDown, w, retries, retries', letters, letters')
  }

  /** A refusal for now stores its code and is retried or buried. */
  lemma RefusalIsWrittenOut(c: Config, id: Id, was: Row, x: Input, w: Weather,
      retries: seq<Message>, letters: seq<DeadLetter>)
    requires !x.reply.success && (x.reply.errorCode.None? || x.reply.errorCode.value in {0, 1, 2, 3, 6})
    ensures var (row, e) := SendRow(c, id, was, x);
            && row.errorCode.Some? && !e.Raise?
            && RetriedOrBuried(c, id, was, row, row.errorCode.value, w,
                 retries, retries + (if w.rabbit then Emitted(id, Done(e)) else []),
                 letters, letters + Buried(e, w.dlq))
  {
    var done := SendRow(c, id, was, x);
    RefusedForNow(c, id, was, x);
    RescheduledIsWrittenOut(c, id, was, done.0.errorCode.value, done, w, retries, letters);
  }

  lemma ReplyIsWrittenOut(c: Config, id: Id, was: Row, x: Input, w: Weather,
      retries: seq<Message>, letters: seq<DeadLetter>)
    requires w.fault.None?
    ensures var (row, e) := Struck(was, SendRow(c, id, was, x), Hit(w.fault, 2));
            Answered(c, id, was, x, w, row, e.Raise?,
              retries, retries + (if w.rabbit then Emitted(id, Done(e)) else []), letters, letters + Buried(e, w.dlq))
  {
    if !x.reply.success && (x.reply.errorCode.None? || x.reply.errorCode.value in {0, 1, 2, 3, 6}) {
      RefusalIsWrittenOut(c, id, was, x, w, retries, letters);
    } else {
      assert retries + [] == retries && letters + [] == letters;
    }
  }

  lemma OutcomeIsWrittenOut(c: Config, id: Id, was: Row, x: Input, w: Weather,
      retries: seq<Message>, letters: seq<DeadLetter>)
    requires w.fault.None?
    ensures var (row, e) := Suffered(c, id, was, x, w.fault);
            Undisturbed(c, id, was, x, w, row, e.Raise?,
              retries, retries + (if w.rabbit then Emitted(id, Done(e)) else []), letters, letters + Buried(e, w.dlq))
  {
    DispatchRowCases(c, id, was, x);
    assert retries + [] == retries && letters + [] == letters;
    var queued := was.(status := Queued);
    if was.channel in c.providers {
      if x.up {
        ReplyIsWrittenOut(c, id, queued, x, w, retries, letters);
      } else {
        RescheduledRow(c, id, queued, ProviderDown, x.draw);
        RescheduledIsWrittenOut(c, id, was, ProviderDown, DispatchRow(c, id, was, x), w, retries, letters);
      }
    }
  }

  class DispatchService {
    const config: Config
    const repository: NotificationRepository
    const queue: QueueService
    var deadLetters: seq<DeadLetter>

    constructor (config: Config, repository: NotificationRepository, queue: QueueService)
      ensures this.config == config && this.repository == repository && this.queue == queue && deadLetters == []
    {
      this.config, this.repository, this.queue := config, repository, queue;
      deadLetters := [];
    }

    /** Fetches the row and, if there is one and nothing raises, leaves it SENT, FAILED or RETRYING, with
        at most one message published. */
    method Dispatch(id: Id, x: Input, w: Weather) returns (raised: bool)
      requires repository.Valid()
      modifies repository`rows, queue`retries, this`deadLetters
      ensures repository.Valid()
      ensures id !in old(repository.rows) ==>
                && (raised <==> Hit(w.fault, 0).Some?) && repository.rows == old(repository.rows)
                && queue.retries == old(queue.retries) && deadLetters == old(deadLetters)
      ensures id in old(repository.rows) ==>
                var (row, e) := Suffered(config, id, old(repository.rows)[id], x, w.fault);
                && repository.rows == old(repository.rows)[id := row]
                && queue.retries == old(queue.retries) + (if w.rabbit then Emitted(id, Done(e)) else [])
                && deadLetters == old(deadLetters) + Buried(e, w.dlq)
                && (raised <==> e.Raise?)
      ensures id in old(repository.rows) && w.fault.None? ==>
                Undisturbed(config, id, old(repository.rows)[id], x, w, repository.rows[id], raised,
                  old(queue.retries), queue.retries, old(deadLetters), deadLetters)
    {
      raised := false;
      if Hit(w.fault, 0).Some? {
        return true;
      }
      var found := repository.GetById(id);
      if found.None? {
        return;
      }
      var notification := found.value;
      if w.fault.None? { OutcomeIsWrittenOut(config, id, notification, x, w, queue.retries, deadLetters); }
      raised := Proceed(id, notification, x, w);
    }

    /** With the row in hand. */
    method Proceed(id: Id, notification: Row, x: Input, w: Weather) returns (raised: bool)
      requires repository.Valid() && id in repository.rows && repository.rows[id] == notification
      requires Hit(w.fault, 0).None?
      modifies repository`rows, queue`retries, this`deadLetters
      ensures repository.Valid()
      ensures var (row, e) := Suffered(config, id, notification, x, w.fault);
              && repository.rows == old(repository.rows)[id := row]
              && queue.retries == old(queue.retries) + (if w.rabbit then Emitted(id, Done(e)) else [])
              && deadLetters == old(deadLetters) + Buried(e, w.dlq)
              && (raised <==> e.Raise?)
    {
      SufferedCases(config, id, notification, x, w.fault);
      if notification.channel !in config.providers {
        raised := MarkFailed(id, Unknown, Hit(w.fault, 1));
        return;
      }
      ghost var before := repository.rows;
      var marked, failed := repository.UpdateStatus(id, Queued, NO_PATCH, Hit(w.fault, 1));
      if failed {
        return true;
      }
      // the session refreshes the very object it returned before
      assert repository.rows == before[id := marked.value];
      raised := Attempt(id, marked.value, x, w);
    }

    /** From the health check on. */
    method Attempt(id: Id, notification: Row, x: Input, w: Weather) returns (raised: bool)
      requires repository.Valid() && id in repository.rows && repository.rows[id] == notification
      modifies repository`rows, queue`retries, this`deadLetters
      ensures repository.Valid()
      ensures var (row, e) := Struck(notification, Attempted(config, id, notification, x), Hit(w.fault, 2));
              && repository.rows == old(repository.rows)[id := row]
              && queue.retries == old(queue.retries) + (if w.rabbit then Emitted(id, Done(e)) else [])
              && deadLetters == old(deadLetters) + Buried(e, w.dlq)
              && (raised <==> e.Raise?)
    {
      if x.up {
        raised := Send(id, notification, x, w);
      } else {
        raised := ScheduleRetry(id, notification, ProviderDown, x.draw, w);
      }
    }

    /** The second half of a dispatch, from the send on. */
    method Send(id: Id, notification: Row, x: Input, w: Weather) returns (raised: bool)
      requires repository.Valid() && id in repository.rows && repository.rows[id] == notification
      modifies repository`rows, queue`retries, this`deadLetters
      ensures repository.Valid()
      ensures var (row, e) := Struck(notification, SendRow(config, id, notification, x), Hit(w.fault, 2));
              && repository.rows == old(repository.rows)[id := row]
              && queue.retries == old(queue.retries) + (if w.rabbit then Emitted(id, Done(e)) else [])
              && deadLetters == old(deadLetters) + Buried(e, w.dlq)
              && (raised <==> e.Raise?)
      ensures w.fault.None? ==>
                Answered(config, id, notification, x, w, repository.rows[id], raised,
                  old(queue.retries), queue.retries, old(deadLetters), deadLetters)
    {
      if w.fault.None? { ReplyIsWrittenOut(config, id, notification, x, w, queue.retries, deadLetters); }
      raised := Conclude(id, notification, x, w);
    }

    /** What the answer leads to. */
    method Conclude(id: Id, notification: Row, x: Input, w: Weather) returns (raised: bool)
      requires repository.Valid() && id in repository.rows && repository.rows[id] == notification
      modifies repository`rows, queue`retries, this`deadLetters
      ensures repository.Valid()
      ensures var (row, e) := Struck(notification, SendRow(config, id, notification, x), Hit(w.fault, 2));
              && repository.rows == old(repository.rows)[id := row]
              && queue.retries == old(queue.retries) + (if w.rabbit then Emitted(id, Done(e)) else [])
              && deadLetters == old(deadLetters) + Buried(e, w.dlq)
              && (raised <==> e.Raise?)
    {
      match Classify(x.reply) {
        case Accepted(externalId) => raised := MarkSent(id, externalId, x.now, Hit(w.fault, 2));
        case Refused(code) =>
          if Retryable(code) {
            raised := ScheduleRetry(id, notification, code, x.draw, w);
          } else {
            raised := MarkFailed(id, code, Hit(w.fault, 2));
          }
        case Garbled => raised := true;
      }
    }

    method MarkSent(id: Id, externalId: Option<string>, now: nat, failure: Option<bool>) returns (raised: bool)
      requires repository.Valid() && id in repository.rows
      modifies repository`rows
      ensures repository.Valid() && (raised <==> failure.Some?)
      ensures var row := old(repository.rows)[id];
              repository.rows ==
              if failure == Some(false) then old(repository.rows)
              else old(repository.rows)[id := row.(status := Sent, externalId := externalId, stime := Some(now))]
    {
      var patch := NO_PATCH.(externalId := Some(externalId), stime := Some(now));
      var _, failed := repository.UpdateStatus(id, Sent, patch, failure);
      raised := failed;
    }

    method MarkFailed(id: Id, code: ErrorCode, failure: Option<bool>) returns (raised: bool)
      requires repository.Valid() && id in repository.rows
      modifies repository`rows
      ensures repository.Valid() && (raised <==> failure.Some?)
      ensures var row := old(repository.rows)[id];
              repository.rows ==
              if failure == Some(false) then old(repository.rows)
              else old(repository.rows)[id := row.(status := Failed, errorCode := Some(code))]
    {
      var _, failed := repository.UpdateStatus(id, Failed, NO_PATCH.(errorCode := Some(Some(code))), failure);
      raised := failed;
    }

    /** Past the last retry the row fails and goes to the dead-letter queue; before it, the row is RETRYING
        one level up and a message with that level's delay is published, if RabbitMQ takes it. */
    method ScheduleRetry(id: Id, notification: Row, code: ErrorCode, draw: nat, w: Weather) returns (raised: bool)
      requires repository.Valid() && id in repository.rows && repository.rows[id] == notification
      modifies repository`rows, queue`retries, this`deadLetters
      ensures repository.Valid()
      ensures var intended := RescheduleRow(config, id, notification, code, draw);
              var (row, e) := Struck(notification, intended, Hit(w.fault, 2));
              && repository.rows == old(repository.rows)[id := row]
              && queue.retries == old(queue.retries) + (if w.rabbit then Emitted(id, Done(e)) else [])
              && deadLetters == old(deadLetters) + Buried(e, w.dlq)
              && (raised <==> e.Raise?)
      ensures w.fault.None? ==>
                RetriedOrBuried(config, id, notification, repository.rows[id], code, w,
                  old(queue.retries), queue.retries, old(deadLetters), deadLetters)
    {
      raised := false;
      RescheduledRow(config, id, notification, code, draw);
      RescheduledIsWrittenOut(config, id, notification, code, RescheduleRow(config, id, notification, code, draw), w,
                              queue.retries, deadLetters);
      var policy := PolicyFor(config, notification.event);
      var newRetryCount := notification.retryCount + 1;
      if newRetryCount > policy.maxRetries {
        raised := MarkFailed(id, code, Hit(w.fault, 2));
        if !raised {
          SendToDlq(id, repository.rows[id], code, w.dlq);
        }
        return;
      }
      var delay := RetryDelay(policy, newRetryCount, draw);
      var patch := NO_PATCH.(retryCount := Some(newRetryCount), errorCode := Some(Some(code)));
      var _, failed := repository.UpdateStatus(id, Retrying, patch, Hit(w.fault, 2));
      if failed {
        return true;
      }
      var _ := queue.PublishRetry(id, delay, w.rabbit);
    }

    /** A failure to publish is only logged. */
    method SendToDlq(id: Id, notification: Row, code: ErrorCode, up: bool)
      modifies this`deadLetters
      ensures deadLetters == old(deadLetters) + (if up then [LetterFor(id, notification, code)] else [])
    {
      if up {
        deadLetters := deadLetters + [LetterFor(id, notification, code)];
      }
    }
  }

  /** The method and the engine agree: the atomic dispatch of row id under the same answers, with RabbitMQ
      answering, leaves the row and the retry queue as Dispatch does. */
  lemma DispatchIsTheAtomicAction(c: Config, s: State, i: nat, x: Input)
    requires i < |s.tasks| && s.tasks[i].Dispatching? && s.tasks[i].phase.Fetched? && s.tasks[i].id in s.notes
    ensures Enabled(c, s, DispatchAtOnce(i, Copies(x, 6)))
    ensures var id := s.tasks[i].id;
            var (row, e) := DispatchRow(c, id, s.notes[id].row, x);
            var s' := Apply(c, s, DispatchAtOnce(i, Copies(x, 6)));
            && s'.notes[id].row == row && s'.retries == s.retries + Emitted(id, Done(e))
            && (e.Bury? ==> s'.tasks[i] == Burying(e.letter)) && (id in s'.stranded <==> id in s.stranded || e.Raise?)
  {
    var id := s.tasks[i].id;
    StepsMakeOneDispatch(c, id, s.notes[id], x);
    HistoryOnlyRecords(c, id, s.notes[id], x);
  }

  /** How many steps of the engine a dispatch takes before the fault ends it. */
  function StepsBefore(c: Config, row: Row, x: Input, f: Option<Fault>): nat {
    if f.None? then 6
    else if Hit(f, 0).Some? || Hit(f, 1) == Some(false) then 0
    else if row.channel in c.providers && (Hit(f, 1).Some? || Hit(f, 2) == Some(false)) then
      if x.up && Classify(x.reply).Garbled? && Hit(f, 1).None? then 6 else 2
    else if Hit(f, 2) == Some(true) then if x.up then 5 else 4
    else 6
  }

  /** A dispatch hit by a fault is one of the engine cut short: the row is what the engine's steps up to there
      make of it, and a row left without an outcome has lost its token, no message being published. */
  lemma FaultIsACrash(c: Config, id: Id, n: Note, x: Input, f: Option<Fault>)
    ensures var (row, e) := Suffered(c, id, n.row, x, f);
            var (m, turn) := Run(c, id, Fetched, n, Copies(x, StepsBefore(c, n.row, x, f)));
            && m.row == row
            && (e.Raise? && Active(row) ==> turn.More? || turn == Done(Raise))
  {
    StepsMakeOneDispatch(c, id, n, x);
    HistoryOnlyRecords(c, id, n, x);
    DispatchRowCases(c, id, n.row, x);
    if n.row.channel in c.providers {
      UpToTheOutcome(c, id, n, x);
      TwoSteps(c, id, n, x, 2);
    } else {
      WithoutProvider(c, id, n, x, 4);
      WithoutProvider(c, id, n, x, 5);
    }
  }

  lemma TwoSteps(c: Config, id: Id, n: Note, x: Input, k: nat)
    requires k >= 2 && n.row.channel in c.providers
    ensures var marked := Begin(n).(row := n.row.(status := Queued));
            Run(c, id, Fetched, n, Copies(x, k)) == Run(c, id, Marked(marked.row), marked, Copies(x, k - 2))
  {
    RunCopies(c, id, Fetched, n, x, k);
    RunCopies(c, id, Loaded(n.row), Begin(n), x, k - 1);
  }

  lemma OneDecision(c: Config, id: Id, n: Note, code: ErrorCode, x: Input)
    ensures var (m, turn) := Run(c, id, Deciding(n.row, code), n, Copies(x, 1));
            m.row == Reschedule(c, id, n, code, x.draw).0.row && (Active(m.row) ==> turn.More?)
  {
    RunCopies(c, id, Deciding(n.row, code), n, x, 1);
  }

  lemma OneSend(c: Config, id: Id, n: Note, x: Input)
    ensures var (m, turn) := Run(c, id, Ready(n.row), n, Copies(x, 2));
            && m.row == SendOnce(c, id, n, x).0.row
            && (Active(m.row) ==> turn.More? || turn == Done(Raise))
  {
    RunCopies(c, id, Ready(n.row), n, x, 2);
    var m := HearReply(n, Classify(x.reply));
    match Classify(x.reply)
    case Accepted(externalId) => RunCopies(c, id, Delivering(externalId), m, x, 1);
    case Refused(code) =>
      if Retryable(code) { OneDecision(c, id, m, code, x); } else { RunCopies(c, id, Failing(code), m, x, 1); }
    case Garbled =>
  }

  /** A dispatch after its outcome commit, before it publishes. */
  lemma UpToTheOutcome(c: Config, id: Id, n: Note, x: Input)
    requires n.row.channel in c.providers
    ensures var (m, turn) := Run(c, id, Fetched, n, Copies(x, if x.up then 5 else 4));
            && m.row == DispatchOnce(c, id, n, x).0.row
            && (Active(m.row) ==> turn.More? || turn == Done(Raise))
  {
    var marked := Begin(n).(row := n.row.(status := Queued));
    var asked := HearHealth(marked, x.up);
    if x.up {
      TwoSteps(c, id, n, x, 5);
      RunCopies(c, id, Marked(marked.row), marked, x, 3);
      OneSend(c, id, asked, x);
    } else {
      TwoSteps(c, id, n, x, 4);
      RunCopies(c, id, Marked(marked.row), marked, x, 2);
      OneDecision(c, id, asked, ProviderDown, x);
    }
  }

  lemma WithoutProvider(c: Config, id: Id, n: Note, x: Input, k: nat)
    requires k >= 2 && n.row.channel !in c.providers
    ensures Run(c, id, Fetched, n, Copies(x, k)).0.row == DispatchOnce(c, id, n, x).0.row
  {
    RunCopies(c, id, Fetched, n, x, k);
    RunCopies(c, id, Loaded(n.row), Begin(n), x, k - 1);
  }
}
